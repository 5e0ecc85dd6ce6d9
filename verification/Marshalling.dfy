/** The bytes a fingerprint hashes: the canonical value written out again
    (providers/docker/provider.go:208-222). Equal values, equal bytes, and the other way
    round, so comparing canonical values is comparing what is hashed. */
module Marshalling {
  import opened Model
  import opened JsonStrings
  import opened JsonText
  import opened JsonGrammar

  // Writing a value.

  function Lexemes(v: Value): seq<Lexeme>
    decreases v, 0
  {
    match v
    case Atom(text) => [if text == "true" || text == "false" || text == "null" then Word(text) else Number(text)]
    case Text(text) => [Str(Escape(text))]
    case Arr(items) => [Punct('[')] + (ItemLexemes(items) + [Punct(']')])
    case Obj(members) => [Punct('{')] + (MemberLexemes(members) + [Punct('}')])
  }

  function ItemLexemes(items: seq<Value>): seq<Lexeme>
    decreases items, 1
  {
    if items == [] then []
    else if |items| == 1 then Lexemes(items[0])
    else Lexemes(items[0]) + ([Punct(',')] + ItemLexemes(items[1..]))
  }

  function MemberLexemes(members: seq<Member>): seq<Lexeme>
    decreases members, 1
  {
    if members == [] then []
    else if |members| == 1 then OneMember(members[0])
    else OneMember(members[0]) + ([Punct(',')] + MemberLexemes(members[1..]))
  }

  function OneMember(m: Member): seq<Lexeme>
    decreases m, 0
  {
    [Str(Escape(m.name)), Punct(':')] + Lexemes(m.value)
  }

  function Marshal(v: Value): string {
    Render(Lexemes(v), NoGaps(|Lexemes(v)| + 1))
  }

  function NoGaps(n: nat): (gaps: seq<string>)
    ensures |gaps| == n && forall i | 0 <= i < n :: gaps[i] == ""
  {
    seq(n, _ => "")
  }

  /** What can stand in a decoded document: atoms are words and numbers, strings are valid
      UTF-8. */
  ghost predicate WellFormed(v: Value)
    decreases v, 0
  {
    match v
    case Atom(text) => Proper(Word(text)) || Proper(Number(text))
    case Text(text) => ValidUtf8(text)
    case Arr(items) => ItemsWellFormed(items)
    case Obj(members) => MembersWellFormed(members)
  }

  ghost predicate ItemsWellFormed(items: seq<Value>)
    decreases items, 1
  {
    items == [] || (WellFormed(items[0]) && ItemsWellFormed(items[1..]))
  }

  ghost predicate MembersWellFormed(members: seq<Member>)
    decreases members, 1
  {
    members == [] || (ValidUtf8(members[0].name) && WellFormed(members[0].value) && MembersWellFormed(members[1..]))
  }

  // What is written lexes, and denotes the value.

  /** Proper lexemes, no two numbers side by side. */
  ghost predicate Clear(ls: seq<Lexeme>) {
    && (forall i | 0 <= i < |ls| :: Proper(ls[i]))
    && (forall i | 0 <= i < |ls| - 1 :: !(ls[i].Number? && ls[i + 1].Number?))
  }

  lemma ClearJoin(a: seq<Lexeme>, c: char, b: seq<Lexeme>)
    requires Clear(a) && Clear(b) && c in "{}[],:"
    ensures Clear(a + ([Punct(c)] + b))
  {
    var all := a + ([Punct(c)] + b);
    forall i | 0 <= i < |all| ensures Proper(all[i]) {
      assert i > |a| ==> all[i] == b[i - |a| - 1];
    }
    forall i | 0 <= i < |all| - 1 ensures !(all[i].Number? && all[i + 1].Number?) {
      assert i > |a| ==> all[i] == b[i - |a| - 1] && all[i + 1] == b[i - |a|];
    }
  }

  lemma EscapedIsProper(text: string)
    requires ValidUtf8(text)
    ensures Clear([Str(Escape(text))]) && Decode(Escape(text)) == text
  {
    EscapeRoundTripsIff(text);
    EscapeDecodes(text, []);
  }

  lemma {:induction false} LexemesDenote(v: Value)
    requires WellFormed(v)
    ensures Denotes(v, Lexemes(v)) && Clear(Lexemes(v))
    decreases v, 0
  {
    match v
    case Atom(text) =>
    case Text(text) => EscapedIsProper(text);
    case Arr(items) =>
      if items != [] {
        ItemLexemesDenote(items);
      }
      ArrDenotes(items);
    case Obj(members) =>
      if members != [] {
        MemberLexemesDenote(members);
      }
      ObjDenotes(members);
  }

  lemma ArrDenotes(items: seq<Value>)
    requires Clear(ItemLexemes(items)) && (items != [] ==> ItemsDenote(items, ItemLexemes(items)))
    ensures Denotes(Arr(items), Lexemes(Arr(items))) && Clear(Lexemes(Arr(items)))
  {
    InBrackets('[', ItemLexemes(items), ']');
    BracketsAreClear('[', ItemLexemes(items), ']');
  }

  lemma ObjDenotes(members: seq<Member>)
    requires Clear(MemberLexemes(members)) && (members != [] ==> MembersDenote(members, MemberLexemes(members)))
    ensures Denotes(Obj(members), Lexemes(Obj(members))) && Clear(Lexemes(Obj(members)))
  {
    InBrackets('{', MemberLexemes(members), '}');
    BracketsAreClear('{', MemberLexemes(members), '}');
  }

  lemma InBrackets(open: char, inner: seq<Lexeme>, close: char)
    ensures
      var all := [Punct(open)] + (inner + [Punct(close)]);
      && |all| == |inner| + 2 && all[0] == Punct(open) && all[|all| - 1] == Punct(close)
      && all[1..|all| - 1] == inner
  {
  }

  lemma BracketsAreClear(open: char, inner: seq<Lexeme>, close: char)
    requires Clear(inner) && open in "{}[],:" && close in "{}[],:"
    ensures Clear([Punct(open)] + (inner + [Punct(close)]))
  {
    ClearJoin(inner, close, []);
    assert inner + ([Punct(close)] + []) == inner + [Punct(close)];
    ClearJoin([], open, inner + [Punct(close)]);
    assert [] + ([Punct(open)] + (inner + [Punct(close)])) == [Punct(open)] + (inner + [Punct(close)]);
  }

  lemma {:induction false} ItemLexemesDenote(items: seq<Value>)
    requires items != [] && ItemsWellFormed(items)
    ensures ItemsDenote(items, ItemLexemes(items)) && Clear(ItemLexemes(items))
    decreases items, 1
  {
    LexemesDenote(items[0]);
    if |items| > 1 {
      ItemLexemesDenote(items[1..]);
      var a, b := Lexemes(items[0]), ItemLexemes(items[1..]);
      ClearJoin(a, ',', b);
      CommaBetween(a, b);
    }
  }

  lemma CommaBetween(a: seq<Lexeme>, b: seq<Lexeme>)
    ensures
      var all := a + ([Punct(',')] + b);
      |a| < |all| && all[|a|] == Punct(',') && all[..|a|] == a && all[|a| + 1..] == b
  {
  }

  lemma {:induction false} MemberLexemesDenote(members: seq<Member>)
    requires members != [] && MembersWellFormed(members)
    ensures MembersDenote(members, MemberLexemes(members)) && Clear(MemberLexemes(members))
    decreases members, 1
  {
    OneMemberDenotes(members[0]);
    if |members| > 1 {
      MemberLexemesDenote(members[1..]);
      var a, b := OneMember(members[0]), MemberLexemes(members[1..]);
      ClearJoin(a, ',', b);
      CommaBetween(a, b);
    }
  }

  lemma {:induction false} OneMemberDenotes(m: Member)
    requires ValidUtf8(m.name) && WellFormed(m.value)
    ensures MemberDenotes(m, OneMember(m)) && Clear(OneMember(m))
    decreases m, 0
  {
    EscapedIsProper(m.name);
    LexemesDenote(m.value);
    var name := [Str(Escape(m.name))];
    ClearJoin(name, ':', Lexemes(m.value));
    assert name + ([Punct(':')] + Lexemes(m.value)) == OneMember(m);
    assert OneMember(m)[2..] == Lexemes(m.value);
  }

  /** What is written is read back as the value. */
  lemma MarshalRoundTrips(v: Value)
    requires WellFormed(v)
    ensures Document(Marshal(v)) == Some(v)
  {
    LexemesDenote(v);
    ClearLayout(Lexemes(v));
    DocumentIff(Marshal(v), v);
  }

  lemma ClearLayout(ls: seq<Lexeme>)
    requires Clear(ls)
    ensures Layout(ls, NoGaps(|ls| + 1), Render(ls, NoGaps(|ls| + 1)))
  {
  }

  // Decoded documents are well-formed.

  lemma {:induction false} Utf8Concat(a: string, b: string)
    requires ValidUtf8(a) && ValidUtf8(b)
    ensures ValidUtf8(a + b)
    decreases |a|
  {
    if a == [] {
      assert a + b == b;
    } else {
      var n := Utf8Length(a);
      Utf8Prefix(a, b);
      assert (a + b)[n..] == a[n..] + b;
      Utf8Concat(a[n..], b);
    }
  }

  lemma Utf8Prefix(a: string, b: string)
    requires a != [] && Utf8Length(a) > 0
    ensures Utf8Length(a + b) == Utf8Length(a)
  {
    assert (a + b)[0] == a[0];
    assert |a| >= 2 ==> (a + b)[1] == a[1];
    assert |a| >= 3 ==> (a + b)[2] == a[2];
    assert |a| >= 4 ==> (a + b)[3] == a[3];
  }

  lemma OneCodePoint(s: string)
    requires s != [] && Utf8Length(s) == |s|
    ensures ValidUtf8(s)
  {
    assert s[|s|..] == [];
  }

  lemma EncodeIsUtf8(p: nat)
    requires p < 0x11_0000 && !HighSurrogate(p) && !LowSurrogate(p)
    ensures ValidUtf8(Encode(p))
  {
    var s := Encode(p);
    if p < 0x80 {
    } else if p < 0x800 {
      assert 0xC2 <= s[0] as int <= 0xDF;
    } else if p < 0x1_0000 {
      ThreeBytes(p);
    } else {
      FourBytes(p);
    }
    OneCodePoint(s);
  }

  lemma ThreeBytes(p: nat)
    requires 0x800 <= p < 0x1_0000 && !HighSurrogate(p) && !LowSurrogate(p)
    ensures Utf8Length(Encode(p)) == 3
  {
    var lead, second := p / 0x1000, p / 0x40 % 0x40;
    assert p == (lead * 0x40 + second) * 0x40 + p % 0x40;
    assert lead == 0 ==> second >= 0x20;
    assert lead == 0xD ==> second < 0x20;
  }

  lemma FourBytes(p: nat)
    requires 0x1_0000 <= p < 0x11_0000
    ensures Utf8Length(Encode(p)) == 4
  {
    var lead, second := p / 0x4_0000, p / 0x1000 % 0x40;
    assert p / 0x1000 == lead * 0x40 + second;
    assert lead == 0 ==> second >= 0x10;
    assert lead == 4 ==> second < 0x10;
  }

  lemma StepIsUtf8(s: string)
    requires s != [] && ValidBody(s)
    ensures ValidUtf8(DecodeStep(s).1)
  {
    if s[0] == '\\' {
      EscapeStepIsUtf8(s);
    } else if Utf8Length(s) > 0 {
      Utf8LengthOfPrefix(s);
      OneCodePoint(s[..Utf8Length(s)]);
    }
  }

  lemma EscapeStepIsUtf8(s: string)
    requires s != [] && ValidBody(s) && s[0] == '\\'
    ensures ValidUtf8(DecodeStep(s).1)
  {
    if !UnicodeEscape(s) {
      assert ItemLength(s) == 2 && SimpleEscape(s[1]);
      OneCodePoint([Unescape(s[1])]);
    } else if LowSurrogate(CodeUnit(s)) || HighSurrogate(CodeUnit(s)) {
      OneCodePoint(REPLACEMENT);
      if HighSurrogate(CodeUnit(s)) && UnicodeEscape(s[6..]) && LowSurrogate(CodeUnit(s[6..])) {
        EncodeIsUtf8(0x1_0000 + (CodeUnit(s) - 0xD800) * 0x400 + (CodeUnit(s[6..]) - 0xDC00));
      }
    } else {
      EncodeIsUtf8(CodeUnit(s));
    }
  }

  lemma {:induction false} DecodeIsUtf8(body: string)
    requires ValidBody(body)
    ensures ValidUtf8(Decode(body))
    decreases |body|
  {
    if body != [] {
      var (n, out) := DecodeStep(body);
      StepIsUtf8(body);
      DecodeStepIsLocal(body, []);
      DecodeIsUtf8(body[n..]);
      Utf8Concat(out, Decode(body[n..]));
    }
  }

  ghost predicate AllProper(ls: seq<Lexeme>) {
    forall i | 0 <= i < |ls| :: Proper(ls[i])
  }

  lemma {:induction false} DenotedIsWellFormed(v: Value, ls: seq<Lexeme>)
    requires Denotes(v, ls) && AllProper(ls)
    ensures WellFormed(v)
    decreases v, 0
  {
    match v
    case Atom(text) => assert Proper(ls[0]);
    case Text(text) => assert Proper(ls[0]); DecodeIsUtf8(ls[0].body);
    case Arr(items) =>
      if items != [] {
        ItemsDenotedWellFormed(items, ls[1..|ls| - 1]);
      }
    case Obj(members) =>
      if members != [] {
        MembersDenotedWellFormed(members, ls[1..|ls| - 1]);
      }
  }

  lemma {:induction false} ItemsDenotedWellFormed(items: seq<Value>, ls: seq<Lexeme>)
    requires items != [] && ItemsDenote(items, ls) && AllProper(ls)
    ensures ItemsWellFormed(items)
    decreases items, 1
  {
    if |items| == 1 {
      DenotedIsWellFormed(items[0], ls);
    } else {
      var n: nat :| n < |ls| && ls[n] == Punct(',') && Denotes(items[0], ls[..n]) && ItemsDenote(items[1..], ls[n + 1..]);
      DenotedIsWellFormed(items[0], ls[..n]);
      ItemsDenotedWellFormed(items[1..], ls[n + 1..]);
    }
  }

  lemma {:induction false} MembersDenotedWellFormed(members: seq<Member>, ls: seq<Lexeme>)
    requires members != [] && MembersDenote(members, ls) && AllProper(ls)
    ensures MembersWellFormed(members)
    decreases members, 1
  {
    if |members| == 1 {
      MemberDenotedWellFormed(members[0], ls);
    } else {
      var n: nat :|
        n < |ls| && ls[n] == Punct(',') && MemberDenotes(members[0], ls[..n]) && MembersDenote(members[1..], ls[n + 1..]);
      MemberDenotedWellFormed(members[0], ls[..n]);
      MembersDenotedWellFormed(members[1..], ls[n + 1..]);
    }
  }

  lemma {:induction false} MemberDenotedWellFormed(m: Member, ls: seq<Lexeme>)
    requires MemberDenotes(m, ls) && AllProper(ls)
    ensures ValidUtf8(m.name) && WellFormed(m.value)
    decreases m, 0
  {
    assert Proper(ls[0]);
    DecodeIsUtf8(ls[0].body);
    DenotedIsWellFormed(m.value, ls[2..]);
  }

  lemma {:induction false} CanonicalIsWellFormed(v: Value)
    requires WellFormed(v)
    ensures WellFormed(Canonical(v))
    decreases v, 0
  {
    match v
    case Arr(items) => CanonicalItemsWellFormed(items);
    case Obj(members) => CanonicalMembersWellFormed(members, []);
    case _ =>
  }

  lemma {:induction false} CanonicalItemsWellFormed(items: seq<Value>)
    requires ItemsWellFormed(items)
    ensures ItemsWellFormed(CanonicalItems(items))
    decreases items, 1
  {
    if items != [] {
      CanonicalIsWellFormed(items[0]);
      CanonicalItemsWellFormed(items[1..]);
      assert CanonicalItems(items)[1..] == CanonicalItems(items[1..]);
    }
  }

  lemma {:induction false} SetMemberWellFormed(members: seq<Member>, m: Member)
    requires MembersWellFormed(members) && ValidUtf8(m.name) && WellFormed(m.value)
    ensures MembersWellFormed(SetMember(members, m))
    decreases |members|
  {
    if members != [] && members[0].name != m.name && !StringLess(m.name, members[0].name) {
      SetMemberWellFormed(members[1..], m);
      assert SetMember(members, m)[1..] == SetMember(members[1..], m);
    } else {
      assert ([m] + members)[1..] == members;
      assert members != [] ==> ([m] + members[1..])[1..] == members[1..];
    }
  }

  lemma {:induction false} CanonicalMembersWellFormed(members: seq<Member>, done: seq<Member>)
    requires MembersWellFormed(members) && MembersWellFormed(done)
    ensures MembersWellFormed(CanonicalMembers(members, done))
    decreases members, 1
  {
    if members != [] {
      var first := Member(members[0].name, Canonical(members[0].value));
      CanonicalIsWellFormed(members[0].value);
      SetMemberWellFormed(done, first);
      CanonicalMembersWellFormed(members[1..], SetMember(done, first));
    }
  }

  // The bytes that are hashed.

  /** json.Marshal of what json.Unmarshal yields, or the Spec itself if it is no JSON. */
  function HashedBytes(spec: string): string {
    match Document(spec)
    case Some(v) => Marshal(Canonical(v))
    case None => spec
  }

  lemma HashedIsReadBack(s: string)
    requires ValidJson(s)
    ensures Document(HashedBytes(s)) == Some(Canonical(Document(s).value))
  {
    var v := Document(s).value;
    DocumentIff(s, v);
    var ls, gaps :| Layout(ls, gaps, s) && Denotes(v, ls);
    DenotedIsWellFormed(v, ls);
    CanonicalIsWellFormed(v);
    MarshalRoundTrips(Canonical(v));
  }

  /** Two Specs have the same fingerprint exactly when the bytes hashed for them are the
      same. */
  lemma FingerprintIsOfBytes(s: string, t: string)
    ensures SpecHash(s) == SpecHash(t) <==> HashedBytes(s) == HashedBytes(t)
  {
    if ValidJson(s) {
      HashedIsReadBack(s);
    }
    if ValidJson(t) {
      HashedIsReadBack(t);
    }
  }
}
