/** Replacement cascades through references: a changed resolved value changes the
    fingerprint of every Spec that uses it (core/api/resource.go:69-82,
    providers/docker/provider.go:203-222). */
module Cascade {
  import opened JsonStrings
  import opened JsonText
  import opened Tokens
  import opened Substitution
  import opened DocumentSubstitution

  // An order in which substitution is monotone: shorter first, then byte-wise.

  predicate Less(a: string, b: string) {
    |a| < |b| || (|a| == |b| && StringLess(a, b))
  }

  predicate AtMost(a: string, b: string) {
    a == b || Less(a, b)
  }

  lemma {:induction false} BytewiseTotal(a: string, b: string)
    requires |a| == |b| && a != b
    ensures StringLess(a, b) || StringLess(b, a)
  {
    if a[0] == b[0] {
      assert a == [a[0]] + a[1..] && b == [b[0]] + b[1..];
      BytewiseTotal(a[1..], b[1..]);
    }
  }

  lemma {:induction false} BytewiseOrder(a: string, b: string, c: string)
    requires |a| == |b| == |c|
    ensures !(StringLess(a, b) && StringLess(b, a))
    ensures StringLess(a, b) && StringLess(b, c) ==> StringLess(a, c)
  {
    if a != [] {
      BytewiseOrder(a[1..], b[1..], c[1..]);
    }
  }

  lemma LessIsOrder(a: string, b: string, c: string)
    ensures !(Less(a, b) && AtMost(b, a))
    ensures AtMost(a, b) && AtMost(b, c) ==> AtMost(a, c)
  {
    if |a| == |b| {
      BytewiseOrder(a, b, b);
    }
    if |a| == |b| == |c| {
      BytewiseOrder(a, b, c);
    }
  }

  lemma {:induction false} BytewiseConcat(a: string, a': string, b: string, b': string)
    requires |a| == |a'| && |b| == |b'|
    ensures a == a' && StringLess(b, b') ==> StringLess(a + b, a' + b')
    ensures StringLess(a, a') ==> StringLess(a + b, a' + b')
  {
    if a == [] {
      assert a + b == b && a' + b' == b';
    } else {
      assert (a + b)[1..] == a[1..] + b && (a' + b')[1..] == a'[1..] + b';
      assert (a + b)[0] == a[0] && (a' + b')[0] == a'[0];
      BytewiseConcat(a[1..], a'[1..], b, b');
    }
  }

  lemma ConcatIsMonotone(a: string, a': string, b: string, b': string)
    requires AtMost(a, a') && AtMost(b, b')
    ensures AtMost(a + b, a' + b')
    ensures Less(a, a') || Less(b, b') ==> Less(a + b, a' + b')
  {
    if |a| == |a'| && |b| == |b'| {
      BytewiseConcat(a, a', b, b');
    }
  }

  /** `after` gives `name` a later value than `before` does, and agrees elsewhere. */
  ghost predicate Raises(before: map<string, string>, after: map<string, string>, name: string) {
    ChangesOnly(before, after, name) && Less(before[name], after[name])
  }

  lemma MeaningRises(piece: Piece, before: map<string, string>, after: map<string, string>, name: string)
    requires Raises(before, after, name)
    ensures AtMost(Meaning(piece, before), Meaning(piece, after))
    ensures piece == Hole(name) ==> Less(Meaning(piece, before), Meaning(piece, after))
  {
    if piece == Hole(name) {
      SanitizeKeepsIff(before[name]);
      SanitizeKeepsIff(after[name]);
    }
  }

  lemma {:induction false} MeaningsRise(pieces: seq<Piece>, before: map<string, string>, after: map<string, string>, name: string)
    requires Raises(before, after, name)
    ensures AtMost(MeaningAll(pieces, before), MeaningAll(pieces, after))
    ensures name in HoleNames(pieces) ==> Less(MeaningAll(pieces, before), MeaningAll(pieces, after))
  {
    if pieces != [] {
      MeaningRises(pieces[0], before, after, name);
      MeaningsRise(pieces[1..], before, after, name);
      ConcatIsMonotone(Meaning(pieces[0], before), Meaning(pieces[0], after),
                       MeaningAll(pieces[1..], before), MeaningAll(pieces[1..], after));
    }
  }

  ghost predicate NoEmptyValue(values: map<string, string>) {
    forall name | name in values :: values[name] != []
  }

  lemma BodyRises(body: string, before: map<string, string>, after: map<string, string>, name: string)
    requires Raises(before, after, name) && NoEmptyValue(before) && NoEmptyValue(after) && ValidBody(body)
    ensures
      var b, a := Decode(SubstituteReferences(body, before)), Decode(SubstituteReferences(body, after));
      AtMost(b, a) && (name in SpecReferenceTokens(body) ==> Less(b, a))
  {
    SubstitutedStringDecodes(body, before);
    SubstitutedStringDecodes(body, after);
    PiecesCoverSpec(body);
    MeaningsRise(Pieces(body), before, after, name);
  }

  // Tokens of a document are tokens of its strings.

  function BodyTokens(ls: seq<Lexeme>): seq<string> {
    if ls == [] then []
    else (if ls[0].Str? then SpecReferenceTokens(ls[0].body) else []) + BodyTokens(ls[1..])
  }

  ghost predicate ValidBodies(ls: seq<Lexeme>) {
    forall i | 0 <= i < |ls| && ls[i].Str? :: ValidBody(ls[i].body)
  }

  lemma {:induction false} NoDollarNoTokens(a: string, b: string)
    requires '$' !in a
    ensures SpecReferenceTokens(a + b) == SpecReferenceTokens(b)
  {
    if a == [] {
      assert a + b == b;
    } else {
      assert (a + b)[0] == a[0] && (a + b)[1..] == a[1..] + b;
      NoDollarNoTokens(a[1..], b);
    }
  }

  lemma {:induction false} TokensThroughQuote(body: string, rest: string)
    ensures SpecReferenceTokens(body + ("\"" + rest)) == SpecReferenceTokens(body) + SpecReferenceTokens(rest)
    decreases |body|
  {
    var s := body + ("\"" + rest);
    if body == [] {
      assert s == "\"" + rest && s[1..] == rest && s[0] == '"';
    } else {
      TokenEndsBeforeQuote(body, rest);
      var cut := if TokenLength(body) > 0 then TokenLength(body) else 1;
      assert s[cut..] == body[cut..] + ("\"" + rest);
      TokensThroughQuote(body[cut..], rest);
    }
  }

  lemma OtherLexemes(s: string)
    requires s != [] && s[0] != '"' && NextLexeme(s).Some?
    ensures '$' !in s[..NextLexeme(s).value.0] && BodyTokens(NextLexeme(s).value.1) == []
    ensures |NextLexeme(s).value.1| <= 1 && ValidBodies(NextLexeme(s).value.1)
  {
  }

  lemma {:induction false} TokensAreInStrings(s: string)
    requires Lex(s).Some?
    ensures BodyTokens(Lex(s).value) == SpecReferenceTokens(s) && ValidBodies(Lex(s).value)
    decreases |s|
  {
    if s == [] {
    } else if s[0] == '"' {
      var body, rest := QuotedPrefix(s);
      TokensAreInStrings(rest);
      NoDollarNoTokens("\"", body + ("\"" + rest));
      TokensThroughQuote(body, rest);
      assert ([Str(body)] + Lex(rest).value)[1..] == Lex(rest).value;
    } else {
      var n := NextLexeme(s).value.0;
      var first := NextLexeme(s).value.1;
      var rest := Lex(s[n..]).value;
      TokensAreInStrings(s[n..]);
      OtherLexemes(s);
      NoDollarNoTokens(s[..n], s[n..]);
      SplitAt(s, n);
      LexUnfolds(s, n, first, s[n..]);
      if first != [] {
        assert (first + rest)[1..] == rest && (first + rest)[0] == first[0];
      } else {
        assert first + rest == rest;
      }
    }
  }

  // Comparing the strings of two documents as bags.

  ghost predicate Pointwise(b: seq<string>, a: seq<string>) {
    |b| == |a| && forall i | 0 <= i < |b| :: AtMost(b[i], a[i])
  }

  /** Between the bags, position `grown` (if it is one) strictly increases. */
  ghost predicate Rises(b: seq<string>, a: seq<string>, grown: nat) {
    Pointwise(b, a) && (grown < |b| ==> Less(b[grown], a[grown]))
  }

  lemma RisesCons(x: string, y: string, b: seq<string>, a: seq<string>, grown: nat)
    requires AtMost(x, y) && Rises(b, a, grown)
    ensures Rises([x] + b, [y] + a, grown + 1)
    ensures Less(x, y) ==> Rises([x] + b, [y] + a, 0)
  {
  }

  lemma TextsCons(ls: seq<Lexeme>, values: map<string, string>)
    requires ls != []
    ensures Texts(SubstituteLexemes(ls, values)) ==
              (if ls[0].Str? then [Decode(SubstituteReferences(ls[0].body, values))] else [])
              + Texts(SubstituteLexemes(ls[1..], values))
  {
    TextsUnfold(SubstituteLexemes(ls, values));
    assert SubstituteLexemes(ls, values)[1..] == SubstituteLexemes(ls[1..], values);
  }

  /** Raising one value raises the strings that use it and lowers none. */
  lemma {:induction false} TextsRise(ls: seq<Lexeme>, before: map<string, string>, after: map<string, string>, name: string)
    returns (grown: nat)
    requires Raises(before, after, name) && NoEmptyValue(before) && NoEmptyValue(after) && ValidBodies(ls)
    ensures Rises(Texts(SubstituteLexemes(ls, before)), Texts(SubstituteLexemes(ls, after)), grown)
    ensures name in BodyTokens(ls) ==> grown < |Texts(SubstituteLexemes(ls, before))|
  {
    grown := 0;
    if ls != [] {
      assert ValidBodies(ls[1..]);
      var g := TextsRise(ls[1..], before, after, name);
      TextsCons(ls, before);
      TextsCons(ls, after);
      if ls[0].Str? {
        BodyRises(ls[0].body, before, after, name);
        RisesCons(Decode(SubstituteReferences(ls[0].body, before)), Decode(SubstituteReferences(ls[0].body, after)),
                  Texts(SubstituteLexemes(ls[1..], before)), Texts(SubstituteLexemes(ls[1..], after)), g);
        grown := if name in SpecReferenceTokens(ls[0].body) then 0 else g + 1;
      } else {
        grown := g;
      }
    }
  }

  function CountFrom(strings: seq<string>, bound: string): nat {
    if strings == [] then 0 else (if AtMost(bound, strings[0]) then 1 else 0) + CountFrom(strings[1..], bound)
  }

  lemma {:induction false} CountRises(b: seq<string>, a: seq<string>, bound: string, grown: nat)
    requires Pointwise(b, a)
    ensures CountFrom(b, bound) <= CountFrom(a, bound)
    ensures grown < |b| && Less(b[grown], a[grown]) && bound == a[grown] ==> CountFrom(b, bound) < CountFrom(a, bound)
    decreases |b|
  {
    if b != [] {
      LessIsOrder(bound, b[0], a[0]);
      LessIsOrder(b[0], a[0], a[0]);
      CountRises(b[1..], a[1..], bound, if grown > 0 then grown - 1 else |b|);
    }
  }

  lemma {:induction false} CountConcat(x: seq<string>, y: seq<string>, bound: string)
    ensures CountFrom(x + y, bound) == CountFrom(x, bound) + CountFrom(y, bound)
  {
    if x == [] {
      assert x + y == y;
    } else {
      assert (x + y)[1..] == x[1..] + y;
      CountConcat(x[1..], y, bound);
    }
  }

  /** The count depends on the bag of strings only. */
  lemma DropFromBag(y: seq<string>, i: nat)
    requires i < |y|
    ensures multiset(y[..i] + y[i + 1..]) == multiset(y) - multiset{y[i]}
  {
    assert y == y[..i] + ([y[i]] + y[i + 1..]);
  }

  lemma CountDrop(y: seq<string>, i: nat, bound: string)
    requires i < |y|
    ensures CountFrom(y, bound) == CountFrom([y[i]], bound) + CountFrom(y[..i] + y[i + 1..], bound)
  {
    assert y == y[..i] + ([y[i]] + y[i + 1..]);
    CountConcat(y[..i], [y[i]] + y[i + 1..], bound);
    CountConcat([y[i]], y[i + 1..], bound);
    CountConcat(y[..i], y[i + 1..], bound);
  }

  lemma SameAfterDrop(x: seq<string>, y: seq<string>, i: nat)
    requires x != [] && i < |y| && y[i] == x[0] && multiset(x) == multiset(y)
    ensures multiset(x[1..]) == multiset(y[..i] + y[i + 1..])
  {
    DropFromBag(x, 0);
    DropFromBag(y, i);
    assert x[..0] + x[1..] == x[1..];
  }

  lemma {:induction false} CountOfBag(x: seq<string>, y: seq<string>, bound: string)
    requires multiset(x) == multiset(y)
    ensures CountFrom(x, bound) == CountFrom(y, bound)
    decreases |x|
  {
    if x == [] {
      assert |multiset(y)| == 0;
    } else {
      assert x[0] in multiset(y);
      var i :| 0 <= i < |y| && y[i] == x[0];
      CountDrop(x, 0, bound);
      CountDrop(y, i, bound);
      assert x[..0] + x[1..] == x[1..];
      SameAfterDrop(x, y, i);
      CountOfBag(x[1..], y[..i] + y[i + 1..], bound);
    }
  }

  // Canonicalization permutes strings when no member name is repeated.

  predicate DistinctNames(members: seq<Member>) {
    forall i, j | 0 <= i < j < |members| :: members[i].name != members[j].name
  }

  predicate NoDuplicates(v: Value) {
    match v
    case Arr(items) => NoDuplicateItems(items)
    case Obj(members) => DistinctNames(members) && NoDuplicateMembers(members)
    case _ => true
  }

  predicate NoDuplicateItems(items: seq<Value>) {
    items == [] || (NoDuplicates(items[0]) && NoDuplicateItems(items[1..]))
  }

  predicate NoDuplicateMembers(members: seq<Member>) {
    members == [] || (NoDuplicates(members[0].value) && NoDuplicateMembers(members[1..]))
  }

  function Names(members: seq<Member>): set<string> {
    set m | m in members :: m.name
  }

  ghost function Bag(members: seq<Member>): multiset<string> {
    multiset(MemberStrings(members))
  }

  ghost function MemberBag(m: Member): multiset<string> {
    multiset{m.name} + multiset(Strings(m.value))
  }

  lemma BagCons(m: Member, members: seq<Member>)
    ensures Bag([m] + members) == MemberBag(m) + Bag(members)
    ensures Names([m] + members) == {m.name} + Names(members)
  {
  }

  lemma SetMemberUnfolds(members: seq<Member>, m: Member)
    requires m.name !in Names(members) && members != []
    ensures m.name !in Names(members[1..])
    ensures StringLess(m.name, members[0].name) ==> SetMember(members, m) == [m] + members
    ensures !StringLess(m.name, members[0].name) ==> SetMember(members, m) == [members[0]] + SetMember(members[1..], m)
  {
  }

  /** `after` holds what `before` does and `m`. */
  ghost predicate Gains(before: seq<Member>, after: seq<Member>, m: Member) {
    Bag(after) == Bag(before) + MemberBag(m) && Names(after) == Names(before) + {m.name}
  }

  lemma GainsCons(head: Member, before: seq<Member>, after: seq<Member>, m: Member)
    requires Gains(before, after, m)
    ensures Gains([head] + before, [head] + after, m)
  {
    BagCons(head, before);
    BagCons(head, after);
  }

  lemma GainsHead(members: seq<Member>, m: Member)
    ensures Gains(members, [m] + members, m)
  {
  }

  lemma {:induction false} SetFreshMember(members: seq<Member>, m: Member)
    requires m.name !in Names(members)
    ensures Gains(members, SetMember(members, m), m)
  {
    if members == [] {
      GainsHead([], m);
      assert [m] + [] == [m];
    } else {
      SetMemberUnfolds(members, m);
      if StringLess(m.name, members[0].name) {
        GainsHead(members, m);
      } else {
        SetFreshMember(members[1..], m);
        GainsCons(members[0], members[1..], SetMember(members[1..], m), m);
        assert members == [members[0]] + members[1..];
      }
    }
  }

  lemma {:induction false} CanonicalPermutes(v: Value)
    requires NoDuplicates(v)
    ensures multiset(Strings(Canonical(v))) == multiset(Strings(v))
    decreases v, 0
  {
    match v
    case Arr(items) => CanonicalItemsPermute(items);
    case Obj(members) =>
      CanonicalMembersPermute(members, []);
      assert Bag([]) == multiset{};
    case _ =>
  }

  lemma {:induction false} CanonicalItemsPermute(items: seq<Value>)
    requires NoDuplicateItems(items)
    ensures multiset(ItemStrings(CanonicalItems(items))) == multiset(ItemStrings(items))
    decreases items, 1
  {
    if items != [] {
      CanonicalPermutes(items[0]);
      CanonicalItemsPermute(items[1..]);
      ItemStringsCons(Canonical(items[0]), CanonicalItems(items[1..]));
    }
  }

  lemma {:induction false} CanonicalMembersPermute(members: seq<Member>, done: seq<Member>)
    requires NoDuplicateMembers(members) && DistinctNames(members) && Names(members) !! Names(done)
    ensures Bag(CanonicalMembers(members, done)) == Bag(done) + Bag(members)
    decreases members, 1
  {
    if members != [] {
      var first := Member(members[0].name, Canonical(members[0].value));
      assert members == [members[0]] + members[1..];
      BagCons(members[0], members[1..]);
      CanonicalPermutes(members[0].value);
      assert MemberBag(first) == MemberBag(members[0]);
      assert first.name !in Names(members[1..]);
      SetFreshMember(done, first);
      CanonicalMembersPermute(members[1..], SetMember(done, first));
    }
  }

  // The theorem.

  lemma DocumentStrings(s: string)
    requires ValidJson(s)
    ensures Strings(Document(s).value) == Texts(Lex(s).value)
  {
    ValueKeepsTexts(Lex(s).value);
  }

  lemma RaisedValueChangesHash(spec: string, before: map<string, string>, after: map<string, string>, name: string)
    requires ValidJson(spec) && Raises(before, after, name) && NoEmptyValue(before) && NoEmptyValue(after)
    requires name in SpecReferenceTokens(spec)
    requires ValidJson(SubstituteReferences(spec, before)) && NoDuplicates(Document(SubstituteReferences(spec, before)).value)
    requires ValidJson(SubstituteReferences(spec, after)) && NoDuplicates(Document(SubstituteReferences(spec, after)).value)
    ensures SpecHash(SubstituteReferences(spec, before)) != SpecHash(SubstituteReferences(spec, after))
  {
    var ls := Lex(spec).value;
    var b := Document(SubstituteReferences(spec, before)).value;
    var a := Document(SubstituteReferences(spec, after)).value;
    TokensAreInStrings(spec);
    var grown := TextsRise(ls, before, after, name);
    SubstitutionPreservesJson(spec, before);
    SubstitutionPreservesJson(spec, after);
    DocumentStrings(SubstituteReferences(spec, before));
    DocumentStrings(SubstituteReferences(spec, after));
    var bound := Strings(a)[grown];
    CountRises(Strings(b), Strings(a), bound, grown);
    if Canonical(b) == Canonical(a) {
      CanonicalPermutes(b);
      CanonicalPermutes(a);
      CountOfBag(Strings(b), Strings(a), bound);
    }
  }

  /** When a referenced value is replaced, every dependent whose Spec uses it stops
      matching its fingerprint (no repeated member names, collision-free hash). */
  lemma ReplacementCascades(spec: string, before: map<string, string>, after: map<string, string>, name: string)
    requires ValidJson(spec) && ChangesOnly(before, after, name) && NoEmptyValue(before) && NoEmptyValue(after)
    requires name in SpecReferenceTokens(spec)
    requires forall s | s == SubstituteReferences(spec, before) || s == SubstituteReferences(spec, after) ::
               ValidJson(s) ==> NoDuplicates(Document(s).value)
    ensures SpecHash(SubstituteReferences(spec, before)) != SpecHash(SubstituteReferences(spec, after))
  {
    SubstitutionPreservesJson(spec, before);
    SubstitutionPreservesJson(spec, after);
    if Less(before[name], after[name]) {
      RaisedValueChangesHash(spec, before, after, name);
    } else {
      if |before[name]| == |after[name]| {
        BytewiseTotal(before[name], after[name]);
      }
      RaisedValueChangesHash(spec, after, before, name);
    }
  }
}
