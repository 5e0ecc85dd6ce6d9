/** Substitution leaves member names alone when no token stands in one; then a Spec
    without repeated names keeps that property, and a replacement always shows. */
module MemberNames {
  import opened Model
  import opened JsonStrings
  import opened JsonText
  import opened Tokens
  import opened Substitution
  import opened DocumentSubstitution
  import opened Cascade

  /** In a document, a string is a member name exactly when a colon follows. */
  predicate IsName(ls: seq<Lexeme>, i: nat) {
    i + 1 < |ls| && ls[i].Str? && ls[i + 1] == Punct(':')
  }

  ghost predicate NamesWithoutTokens(ls: seq<Lexeme>) {
    forall i: nat | IsName(ls, i) :: SpecReferenceTokens(ls[i].body) == []
  }

  ghost predicate SameNames(a: seq<Lexeme>, b: seq<Lexeme>) {
    SameShapes(a, b) && forall i: nat | IsName(a, i) :: a[i] == b[i]
  }

  /** A value with its strings forgotten, member names kept. */
  function Skeleton(v: Value): Value {
    match v
    case Atom(_) => v
    case Text(_) => Text("")
    case Arr(items) => Arr(SkeletonItems(items))
    case Obj(members) => Obj(SkeletonMembers(members))
  }

  function SkeletonItems(items: seq<Value>): seq<Value> {
    if items == [] then [] else [Skeleton(items[0])] + SkeletonItems(items[1..])
  }

  function SkeletonMembers(members: seq<Member>): seq<Member> {
    if members == [] then []
    else [Member(members[0].name, Skeleton(members[0].value))] + SkeletonMembers(members[1..])
  }

  lemma {:induction false} SkeletonDuplicates(v: Value)
    ensures NoDuplicates(Skeleton(v)) == NoDuplicates(v)
  {
    match v
    case Atom(_) =>
    case Text(_) =>
    case Arr(items) => SkeletonItemDuplicates(items);
    case Obj(members) => SkeletonMemberDuplicates(members); SkeletonNames(members);
  }

  lemma {:induction false} SkeletonItemDuplicates(items: seq<Value>)
    ensures NoDuplicateItems(SkeletonItems(items)) == NoDuplicateItems(items)
  {
    if items != [] {
      SkeletonDuplicates(items[0]);
      SkeletonItemDuplicates(items[1..]);
      assert SkeletonItems(items)[1..] == SkeletonItems(items[1..]);
    }
  }

  lemma {:induction false} SkeletonMemberDuplicates(members: seq<Member>)
    ensures NoDuplicateMembers(SkeletonMembers(members)) == NoDuplicateMembers(members)
  {
    if members != [] {
      SkeletonDuplicates(members[0].value);
      SkeletonMemberDuplicates(members[1..]);
      assert SkeletonMembers(members)[1..] == SkeletonMembers(members[1..]);
    }
  }

  lemma {:induction false} SkeletonNames(members: seq<Member>)
    ensures |SkeletonMembers(members)| == |members|
    ensures forall i | 0 <= i < |members| :: SkeletonMembers(members)[i].name == members[i].name
    ensures DistinctNames(SkeletonMembers(members)) == DistinctNames(members)
  {
    if members != [] {
      SkeletonNames(members[1..]);
    }
  }

  lemma SuffixNames(a: seq<Lexeme>, b: seq<Lexeme>, n: nat)
    requires SameNames(a, b) && n <= |a|
    ensures SameNames(a[n..], b[n..])
  {
  }

  /** Both parse, to values that differ in strings only, and go on alike. */
  ghost predicate Alike(a: Option<Parsed<Value>>, b: Option<Parsed<Value>>) {
    (a.Some? <==> b.Some?) &&
    (a.Some? ==> SameNames(a.value.rest, b.value.rest) && Skeleton(a.value.result) == Skeleton(b.value.result))
  }

  ghost predicate ItemsAlike(a: Option<Parsed<seq<Value>>>, b: Option<Parsed<seq<Value>>>) {
    (a.Some? <==> b.Some?) &&
    (a.Some? ==> SameNames(a.value.rest, b.value.rest) && SkeletonItems(a.value.result) == SkeletonItems(b.value.result))
  }

  ghost predicate MembersAlike(a: Option<Parsed<seq<Member>>>, b: Option<Parsed<seq<Member>>>) {
    (a.Some? <==> b.Some?) &&
    (a.Some? ==> SameNames(a.value.rest, b.value.rest) && SkeletonMembers(a.value.result) == SkeletonMembers(b.value.result))
  }

  lemma {:induction false} ValuesAreAlike(a: seq<Lexeme>, b: seq<Lexeme>)
    requires SameNames(a, b)
    ensures Alike(ParseValue(a), ParseValue(b))
    decreases |a|, 0
  {
    if a != [] {
      HeadShapes(a, b);
      SuffixNames(a, b, 1);
      if |a| >= 2 {
        HeadShapes(a[1..], b[1..]);
        SuffixNames(a, b, 2);
      }
      if a[0] == Punct('[') && !(|a| >= 2 && a[1] == Punct(']')) {
        ItemsAreAlike(a[1..], b[1..]);
      } else if a[0] == Punct('{') && !(|a| >= 2 && a[1] == Punct('}')) {
        MembersAreAlike(a[1..], b[1..]);
      }
    }
  }

  lemma ItemsCons(v: Value, items: seq<Value>)
    ensures SkeletonItems([v] + items) == [Skeleton(v)] + SkeletonItems(items)
  {
  }

  lemma MembersCons(m: Member, members: seq<Member>)
    ensures SkeletonMembers([m] + members) == [Member(m.name, Skeleton(m.value))] + SkeletonMembers(members)
  {
  }

  lemma {:induction false} ItemsAreAlike(a: seq<Lexeme>, b: seq<Lexeme>)
    requires SameNames(a, b)
    ensures ItemsAlike(ParseItems(a), ParseItems(b))
    decreases |a|, 1
  {
    ValuesAreAlike(a, b);
    var p, q := ParseValue(a), ParseValue(b);
    if p.Some? && p.value.rest != [] {
      var pr, qr := p.value.rest, q.value.rest;
      HeadShapes(pr, qr);
      SuffixNames(pr, qr, 1);
      if pr[0] == Punct(']') {
        ItemsCons(p.value.result, []);
        ItemsCons(q.value.result, []);
      } else if pr[0] == Punct(',') {
        ItemsAreAlike(pr[1..], qr[1..]);
        if ParseItems(pr[1..]).Some? {
          ItemsCons(p.value.result, ParseItems(pr[1..]).value.result);
          ItemsCons(q.value.result, ParseItems(qr[1..]).value.result);
        }
      }
    }
  }

  lemma {:induction false} MembersAreAlike(a: seq<Lexeme>, b: seq<Lexeme>)
    requires SameNames(a, b)
    ensures MembersAlike(ParseMembers(a), ParseMembers(b))
    decreases |a|, 1
  {
    if |a| >= 2 {
      HeadShapes(a, b);
      HeadShapes(a[1..], b[1..]);
      SuffixNames(a, b, 2);
      if a[0].Str? && a[1] == Punct(':') {
        assert IsName(a, 0);
        ValuesAreAlike(a[2..], b[2..]);
        if ParseValue(a[2..]).Some? {
          NextMembersAlike(a, b, ParseValue(a[2..]).value, ParseValue(b[2..]).value);
        }
      }
    }
  }

  lemma {:induction false} NextMembersAlike(a: seq<Lexeme>, b: seq<Lexeme>, p: Parsed<Value>, q: Parsed<Value>)
    requires |a| >= 2 && |b| >= 2 && a[0].Str? && a[0] == b[0] && a[1] == Punct(':') == b[1]
    requires ParseValue(a[2..]) == Some(p) && ParseValue(b[2..]) == Some(q) && Alike(Some(p), Some(q))
    ensures MembersAlike(ParseMembers(a), ParseMembers(b))
    decreases |a|, 0
  {
    var m, n := Member(Decode(a[0].body), p.result), Member(Decode(b[0].body), q.result);
    if p.rest != [] {
      HeadShapes(p.rest, q.rest);
      SuffixNames(p.rest, q.rest, 1);
      if p.rest[0] == Punct('}') {
        MembersCons(m, []);
        MembersCons(n, []);
      } else if p.rest[0] == Punct(',') {
        MembersAreAlike(p.rest[1..], q.rest[1..]);
        if ParseMembers(p.rest[1..]).Some? {
          MembersCons(m, ParseMembers(p.rest[1..]).value.result);
          MembersCons(n, ParseMembers(q.rest[1..]).value.result);
        }
      }
    }
  }

  /** With no token in a member name, substitution changes no member name, so it cannot
      make two of them equal. */
  lemma NamesStayDistinct(spec: string, values: map<string, string>)
    requires ValidJson(spec) && NamesWithoutTokens(Lex(spec).value)
    ensures ValidJson(SubstituteReferences(spec, values))
    ensures NoDuplicates(Document(SubstituteReferences(spec, values)).value) == NoDuplicates(Document(spec).value)
  {
    SubstitutionPreservesJson(spec, values);
    var ls := Lex(spec).value;
    var ls' := SubstituteLexemes(ls, values);
    SubstitutedShapes(ls, values);
    forall i: nat | IsName(ls, i) ensures ls[i] == ls'[i] {
      UnusedValuesChangeNothing(ls[i].body, values);
    }
    ValuesAreAlike(ls, ls');
    SkeletonDuplicates(Document(spec).value);
    SkeletonDuplicates(Document(SubstituteReferences(spec, values)).value);
  }

  /** The condition on the Spec alone: no repeated member name and no token in one.
      Then every replacement of a value the Spec uses makes its dependents stale. */
  lemma ReplacementAlwaysShows(spec: string, before: map<string, string>, after: map<string, string>, name: string)
    requires ValidJson(spec) && NoDuplicates(Document(spec).value) && NamesWithoutTokens(Lex(spec).value)
    requires ChangesOnly(before, after, name) && NoEmptyValue(before) && NoEmptyValue(after)
    requires name in SpecReferenceTokens(spec)
    ensures SpecHash(SubstituteReferences(spec, before)) != SpecHash(SubstituteReferences(spec, after))
  {
    NamesStayDistinct(spec, before);
    NamesStayDistinct(spec, after);
    ReplacementCascades(spec, before, after, name);
  }

  /** A change that goes unseen means that one of the substituted documents repeats a
      member name. */
  lemma HiddenChangeRepeatsAName(spec: string, before: map<string, string>, after: map<string, string>, name: string)
    requires ValidJson(spec) && ChangesOnly(before, after, name) && NoEmptyValue(before) && NoEmptyValue(after)
    requires name in SpecReferenceTokens(spec)
    requires SpecHash(SubstituteReferences(spec, before)) == SpecHash(SubstituteReferences(spec, after))
    ensures ValidJson(SubstituteReferences(spec, before)) && ValidJson(SubstituteReferences(spec, after))
    ensures !NoDuplicates(Document(SubstituteReferences(spec, before)).value)
            || !NoDuplicates(Document(SubstituteReferences(spec, after)).value)
  {
    SubstitutionPreservesJson(spec, before);
    SubstitutionPreservesJson(spec, after);
    if NoDuplicates(Document(SubstituteReferences(spec, before)).value)
       && NoDuplicates(Document(SubstituteReferences(spec, after)).value) {
      ReplacementCascades(spec, before, after, name);
      assert false;
    }
  }

  // With a token in a member name the change can go unseen.

  /** One member with value 0, and what follows it. */
  function MemberThen(name: string, rest: string): string {
    "\"" + (name + ("\"" + (":" + ("0" + rest))))
  }

  function ThreeMembers(a: string, b: string, c: string): string {
    "{" + MemberThen(a, "," + MemberThen(b, "," + MemberThen(c, "}")))
  }

  function MemberLexemes(name: string, rest: seq<Lexeme>): seq<Lexeme> {
    [Str(name)] + ([Punct(':')] + ([Number("0")] + rest))
  }

  function ThreeLexemes(a: string, b: string, c: string): seq<Lexeme> {
    [Punct('{')] + MemberLexemes(a, [Punct(',')] + MemberLexemes(b, [Punct(',')] + MemberLexemes(c, [Punct('}')])))
  }

  lemma LexPunct(p: string, rest: string)
    requires (p == "{" || p == "}" || p == ":" || p == ",") && Lex(rest).Some?
    ensures Lex(p + rest) == Some([Punct(p[0])] + Lex(rest).value)
  {
  }

  lemma LexZero(rest: string)
    requires rest != [] && (rest[0] == ',' || rest[0] == '}') && Lex(rest).Some?
    ensures Lex("0" + rest) == Some([Number("0")] + Lex(rest).value)
  {
    var s := "0" + rest;
    assert s[1..] == rest && s[..1] == "0";
    assert NumberRun(rest) == 0 && NumberRun(s) == 1;
    LexUnfolds(s, 1, [Number("0")], rest);
  }

  lemma LexMember(name: string, rest: string)
    requires ValidBody(name) && rest != [] && (rest[0] == ',' || rest[0] == '}') && Lex(rest).Some?
    ensures Lex(MemberThen(name, rest)) == Some(MemberLexemes(name, Lex(rest).value))
  {
    LexZero(rest);
    LexPunct(":", "0" + rest);
    LexString(MemberThen(name, rest), name, ":" + ("0" + rest));
  }

  lemma LexThree(a: string, b: string, c: string)
    requires ValidBody(a) && ValidBody(b) && ValidBody(c)
    ensures Lex(ThreeMembers(a, b, c)) == Some(ThreeLexemes(a, b, c))
  {
    assert "}" + "" == "}";
    LexPunct("}", "");
    assert [Punct('}')] + Lex("").value == [Punct('}')];
    LexMember(c, "}");
    var two := MemberThen(c, "}");
    LexPunct(",", two);
    LexMember(b, "," + two);
    var one := MemberThen(b, "," + two);
    LexPunct(",", one);
    LexMember(a, "," + one);
    LexPunct("{", MemberThen(a, "," + one));
  }

  lemma ParseLast(name: string)
    ensures ParseMembers(MemberLexemes(name, [Punct('}')])) == Some(Parsed([Member(Decode(name), Atom("0"))], []))
  {
  }

  lemma ParseNext(name: string, rest: seq<Lexeme>, members: seq<Member>)
    requires ParseMembers(rest) == Some(Parsed(members, []))
    ensures ParseMembers(MemberLexemes(name, [Punct(',')] + rest)) == Some(Parsed([Member(Decode(name), Atom("0"))] + members, []))
  {
    var ls := MemberLexemes(name, [Punct(',')] + rest);
    assert ls[2..] == [Number("0")] + ([Punct(',')] + rest);
    ParseZero([Punct(',')] + rest);
    MoreMembers(ls, Atom("0"), [Punct(',')] + rest, rest, members);
  }

  lemma ParseZero(rest: seq<Lexeme>)
    ensures ParseValue([Number("0")] + rest) == Some(Parsed(Atom("0"), rest))
  {
    assert ([Number("0")] + rest)[1..] == rest;
  }

  lemma MoreMembers(ls: seq<Lexeme>, v: Value, after: seq<Lexeme>, rest: seq<Lexeme>, members: seq<Member>)
    requires |ls| >= 2 && ls[0].Str? && ls[1] == Punct(':') && ParseValue(ls[2..]) == Some(Parsed(v, after))
    requires after == [Punct(',')] + rest && ParseMembers(rest) == Some(Parsed(members, []))
    ensures ParseMembers(ls) == Some(Parsed([Member(Decode(ls[0].body), v)] + members, []))
  {
    assert after[1..] == rest;
  }

  function Zero(name: string): Member {
    Member(Decode(name), Atom("0"))
  }

  lemma ParseObject(rest: seq<Lexeme>, members: seq<Member>)
    requires rest != [] && rest[0].Str? && ParseMembers(rest) == Some(Parsed(members, []))
    ensures ParseValue([Punct('{')] + rest) == Some(Parsed(Obj(members), []))
  {
    var ls := [Punct('{')] + rest;
    assert ls[1..] == rest && ls[1] == rest[0];
  }

  lemma ThreeDocument(a: string, b: string, c: string)
    requires ValidBody(a) && ValidBody(b) && ValidBody(c)
    ensures Document(ThreeMembers(a, b, c)) == Some(Obj([Zero(a)] + ([Zero(b)] + [Zero(c)])))
  {
    LexThree(a, b, c);
    var last := MemberLexemes(c, [Punct('}')]);
    var two := MemberLexemes(b, [Punct(',')] + last);
    ParseLast(c);
    ParseNext(b, last, [Zero(c)]);
    ParseNext(a, two, [Zero(b)] + [Zero(c)]);
    ParseObject(MemberLexemes(a, [Punct(',')] + two), [Zero(a)] + ([Zero(b)] + [Zero(c)]));
  }

  lemma SubstituteMember(name: string, name': string, rest: string, rest': string, values: map<string, string>)
    requires SubstituteReferences(name, values) == name' && SubstituteReferences(rest, values) == rest'
    ensures SubstituteReferences(MemberThen(name, rest), values) == MemberThen(name', rest')
  {
    var tail := ":" + ("0" + rest);
    NoDollarNoToken(":", "0" + rest, values);
    NoDollarNoToken("0", rest, values);
    SubstituteThroughQuote(name, tail, values);
    NoDollarNoToken("\"", name + ("\"" + tail), values);
  }

  lemma SubstituteThree(token: string, p: string, q: string, v: string)
    requires token == TokenText("a") && p == "p" && q == "q" && (v == p || v == q)
    ensures SubstituteReferences(ThreeMembers(token, p, q), map["a" := v]) == ThreeMembers(v, p, q)
  {
    var values := map["a" := v];
    SubstituteNoDollar("}", values);
    SubstituteNoDollar(p, values);
    SubstituteNoDollar(q, values);
    OneToken(v);
    SubstituteMember(q, q, "}", "}", values);
    var two := MemberThen(q, "}");
    NoDollarNoToken(",", two, values);
    SubstituteMember(p, p, "," + two, "," + two, values);
    var one := MemberThen(p, "," + two);
    NoDollarNoToken(",", one, values);
    SubstituteMember(token, v, "," + one, "," + one, values);
    NoDollarNoToken("{", MemberThen(token, "," + one), values);
  }

  lemma SubstituteNoDollar(s: string, values: map<string, string>)
    requires '$' !in s
    ensures SubstituteReferences(s, values) == s
  {
  }

  lemma OneToken(v: string)
    requires v == "p" || v == "q"
    ensures SubstituteReferences(TokenText("a"), map["a" := v]) == v
  {
    var s := TokenText("a");
    assert ValidReferenceName("a") by {
      NameOfNameBytes("a");
    }
    TokenTextMatches("a", "");
    assert s + "" == s;
    assert s[TokenLength(s)..] == "";
    assert v[1..] == "";
    assert Escape(v) == v;
  }

  lemma PlainBodies()
    ensures ValidBody("p") && ValidBody("q") && ValidBody(TokenText("a"))
    ensures Decode("p") == "p" && Decode("q") == "q"
  {
    PlainTextIsValid("p");
    PlainTextIsValid("q");
    PlainTextIsValid(TokenText("a"));
    PlainTextDecodes("p", "");
    PlainTextDecodes("q", "");
    assert "p" + "" == "p" && "q" + "" == "q";
  }

  lemma OneOfTwoIsDropped()
    ensures Canonical(Obj([Member("p", Atom("0")), Member("p", Atom("0")), Member("q", Atom("0"))]))
         == Canonical(Obj([Member("q", Atom("0")), Member("p", Atom("0")), Member("q", Atom("0"))]))
  {
  }

  lemma SameCanonical(p: Member, q: Member)
    requires p == Member("p", Atom("0")) && q == Member("q", Atom("0"))
    ensures Canonical(Obj([p] + ([p] + [q]))) == Canonical(Obj([q] + ([p] + [q])))
  {
    OneOfTwoIsDropped();
    assert [p] + ([p] + [q]) == [p, p, q];
    assert [q] + ([p] + [q]) == [q, p, q];
  }

  lemma ThreeAreDistinct(text: string, p: Member, q: Member)
    requires Plain(text) && |text| >= 8 && p == Member("p", Atom("0")) && q == Member("q", Atom("0"))
    ensures NoDuplicates(Obj([Zero(text)] + ([p] + [q])))
  {
    PlainTextDecodes(text, "");
    assert text + "" == text;
    DistinctMembers(Zero(text), p, q);
  }

  lemma DistinctMembers(a: Member, b: Member, c: Member)
    requires a.value.Atom? && b.value.Atom? && c.value.Atom? && a.name != b.name && b.name != c.name && a.name != c.name
    ensures NoDuplicates(Obj([a] + ([b] + [c])))
  {
    assert NoDuplicates(a.value) && NoDuplicates(b.value) && NoDuplicates(c.value);
    assert NoDuplicateMembers([]);
    assert [c][1..] == [] && ([b] + [c])[1..] == [c] && ([a] + ([b] + [c]))[1..] == [b] + [c];
    assert NoDuplicateMembers([c]);
    assert NoDuplicateMembers([b] + [c]);
  }

  lemma HiddenChange(name: string, x: string, y: string, spec: string, before: map<string, string>, after: map<string, string>)
    requires Plain(name) && |name| >= 8 && x == "p" && y == "q" && spec == ThreeMembers(name, x, y)
    requires SubstituteReferences(spec, before) == ThreeMembers(x, x, y)
    requires SubstituteReferences(spec, after) == ThreeMembers(y, x, y)
    ensures ValidJson(spec) && NoDuplicates(Document(spec).value)
    ensures SpecHash(SubstituteReferences(spec, before)) == SpecHash(SubstituteReferences(spec, after))
  {
    PlainTextIsValid(name);
    PlainBodies();
    ThreeDocument(name, x, y);
    ThreeDocument(x, x, y);
    ThreeDocument(y, x, y);
    SameCanonical(Zero(x), Zero(y));
    ThreeAreDistinct(name, Zero(x), Zero(y));
  }

  /** The text {"$(ref:a)":0,"p":0,"q":0}. */
  function Hiding(): string {
    ThreeMembers(TokenText("a"), "p", "q")
  }

  /** It repeats no name, but with the value of a going from p to q its fingerprint stays:
      one of two equal members is dropped either way. */
  lemma TokenInANameHidesTheChange()
    ensures "a" in SpecReferenceTokens(Hiding()) && ChangesOnly(map["a" := "p"], map["a" := "q"], "a")
    ensures ValidJson(Hiding()) && NoDuplicates(Document(Hiding()).value)
    ensures SpecHash(SubstituteReferences(Hiding(), map["a" := "p"])) == SpecHash(SubstituteReferences(Hiding(), map["a" := "q"]))
  {
    TokenHides(TokenText("a"), "p", "q", Hiding(), map["a" := "p"], map["a" := "q"]);
    TokenIsUsed(Hiding());
    OnlyAChanges(map["a" := "p"], map["a" := "q"]);
  }

  lemma TokenHides(token: string, p: string, q: string, spec: string, before: map<string, string>, after: map<string, string>)
    requires token == TokenText("a") && p == "p" && q == "q" && spec == ThreeMembers(token, p, q)
    requires before == map["a" := p] && after == map["a" := q]
    ensures ValidJson(spec) && NoDuplicates(Document(spec).value)
    ensures SpecHash(SubstituteReferences(spec, before)) == SpecHash(SubstituteReferences(spec, after))
  {
    TokenIsPlain(token);
    SubstituteThree(token, p, q, p);
    SubstituteThree(token, p, q, q);
    HiddenChange(token, p, q, spec, before, after);
  }

  lemma TokenIsPlain(token: string)
    requires token == TokenText("a")
    ensures Plain(token) && |token| >= 8
  {
  }

  lemma OnlyAChanges(before: map<string, string>, after: map<string, string>)
    requires before == map["a" := "p"] && after == map["a" := "q"]
    ensures ChangesOnly(before, after, "a")
  {
  }

  lemma TokenIsUsed(spec: string)
    requires spec == ThreeMembers(TokenText("a"), "p", "q")
    ensures "a" in SpecReferenceTokens(spec)
  {
    var rest := spec[2 + |TokenText("a")|..];
    assert ValidReferenceName("a") by {
      NameOfNameBytes("a");
    }
    TokenTextMatches("a", rest);
    assert spec[2..] == TokenText("a") + rest;
    EveryTokenIsListed(spec, 2);
  }
}
