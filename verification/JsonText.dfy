/** JSON documents (RFC 8259): lexemes, grammar, the value a text stands for, and the
    canonical form json.Marshal gives a decoded value. Numbers are kept as written. */
module JsonText {
  import opened Model
  import opened JsonStrings

  datatype Lexeme =
    | Punct(c: char)
    | Word(text: string)
    | Number(text: string)
    | Str(body: string)

  predicate Digit(c: char) {
    '0' <= c <= '9'
  }

  predicate NumberByte(c: char) {
    Digit(c) || c in "+-.eE"
  }

  predicate IsSpace(c: char) {
    c == ' ' || c == '\t' || c == '\n' || c == '\r'
  }

  function NumberRun(s: string): (n: nat)
    ensures n <= |s|
    ensures forall i | 0 <= i < n :: NumberByte(s[i])
    ensures n < |s| ==> !NumberByte(s[n])
  {
    if s == [] || !NumberByte(s[0]) then 0 else 1 + NumberRun(s[1..])
  }

  function DigitRun(s: string): (n: nat)
    ensures n <= |s|
  {
    if s == [] || !Digit(s[0]) then 0 else 1 + DigitRun(s[1..])
  }

  predicate AllDigits(s: string) {
    s != [] && DigitRun(s) == |s|
  }

  predicate ValidExponent(s: string) {
    s == [] || ((s[0] == 'e' || s[0] == 'E')
                && (AllDigits(s[1..]) || (|s| >= 2 && s[1] in "+-" && AllDigits(s[2..]))))
  }

  predicate ValidFraction(s: string) {
    if s != [] && s[0] == '.' then DigitRun(s[1..]) > 0 && ValidExponent(s[1 + DigitRun(s[1..])..])
    else ValidExponent(s)
  }

  predicate ValidUnsigned(s: string) {
    s != [] && Digit(s[0])
    && (if s[0] == '0' then ValidFraction(s[1..]) else ValidFraction(s[DigitRun(s)..]))
  }

  /** The number grammar of section 6. */
  predicate ValidNumber(s: string) {
    if s != [] && s[0] == '-' then ValidUnsigned(s[1..]) else ValidUnsigned(s)
  }

  /** Length of the string body before its closing quote. */
  function BodyLength(s: string): (r: Option<nat>)
    ensures r.Some? ==> r.value < |s| && s[r.value] == '"'
  {
    if s == [] then None
    else if s[0] == '"' then Some(0)
    else if ItemLength(s) == 0 then None
    else
      match BodyLength(s[ItemLength(s)..])
      case None => None
      case Some(n) => Some(ItemLength(s) + n)
  }

  /** The bytes at the front of a text that form white space or one lexeme. */
  function NextLexeme(s: string): (r: Option<(nat, seq<Lexeme>)>)
    requires s != []
    ensures r.Some? ==> 0 < r.value.0 <= |s|
  {
    if IsSpace(s[0]) then Some((1, []))
    else if s[0] in "{}[],:" then Some((1, [Punct(s[0])]))
    else if s[0] == '"' then
      match BodyLength(s[1..])
      case None => None
      case Some(n) => Some((n + 2, [Str(s[1..n + 1])]))
    else if s[0] == '-' || Digit(s[0]) then
      var n := NumberRun(s);
      if ValidNumber(s[..n]) then Some((n, [Number(s[..n])])) else None
    else if "true" <= s then Some((4, [Word("true")]))
    else if "false" <= s then Some((5, [Word("false")]))
    else if "null" <= s then Some((4, [Word("null")]))
    else None
  }

  function Lex(s: string): Option<seq<Lexeme>> {
    if s == [] then Some([])
    else
      match NextLexeme(s)
      case None => None
      case Some((n, first)) =>
        match Lex(s[n..])
        case None => None
        case Some(rest) => Some(first + rest)
  }

  // Grammar.

  datatype Value =
    | Atom(text: string)
    | Text(text: string)
    | Arr(items: seq<Value>)
    | Obj(members: seq<Member>)

  datatype Member = Member(name: string, value: Value)

  datatype Parsed<+T> = Parsed(result: T, rest: seq<Lexeme>)

  ghost predicate Suffix(rest: seq<Lexeme>, ls: seq<Lexeme>) {
    |rest| < |ls| && rest == ls[|ls| - |rest|..]
  }

  function ParseValue(ls: seq<Lexeme>): (r: Option<Parsed<Value>>)
    ensures r.Some? ==> Suffix(r.value.rest, ls)
    decreases |ls|, 0
  {
    if ls == [] then None
    else match ls[0]
      case Word(text) => Some(Parsed(Atom(text), ls[1..]))
      case Number(text) => Some(Parsed(Atom(text), ls[1..]))
      case Str(body) => Some(Parsed(Text(Decode(body)), ls[1..]))
      case Punct(c) =>
        if c == '[' then
          if |ls| >= 2 && ls[1] == Punct(']') then Some(Parsed(Arr([]), ls[2..]))
          else
            match ParseItems(ls[1..])
            case None => None
            case Some(p) => Some(Parsed(Arr(p.result), p.rest))
        else if c == '{' then
          if |ls| >= 2 && ls[1] == Punct('}') then Some(Parsed(Obj([]), ls[2..]))
          else
            match ParseMembers(ls[1..])
            case None => None
            case Some(p) => Some(Parsed(Obj(p.result), p.rest))
        else None
  }

  function ParseItems(ls: seq<Lexeme>): (r: Option<Parsed<seq<Value>>>)
    ensures r.Some? ==> Suffix(r.value.rest, ls)
    decreases |ls|, 1
  {
    match ParseValue(ls)
    case None => None
    case Some(p) =>
      if p.rest == [] then None
      else if p.rest[0] == Punct(']') then Some(Parsed([p.result], p.rest[1..]))
      else if p.rest[0] == Punct(',') then
        match ParseItems(p.rest[1..])
        case None => None
        case Some(q) => Some(Parsed([p.result] + q.result, q.rest))
      else None
  }

  function ParseMembers(ls: seq<Lexeme>): (r: Option<Parsed<seq<Member>>>)
    ensures r.Some? ==> Suffix(r.value.rest, ls)
    decreases |ls|, 1
  {
    if |ls| < 2 || !ls[0].Str? || ls[1] != Punct(':') then None
    else
      match ParseValue(ls[2..])
      case None => None
      case Some(p) =>
        var member := Member(Decode(ls[0].body), p.result);
        if p.rest == [] then None
        else if p.rest[0] == Punct('}') then Some(Parsed([member], p.rest[1..]))
        else if p.rest[0] == Punct(',') then
          match ParseMembers(p.rest[1..])
          case None => None
          case Some(q) => Some(Parsed([member] + q.result, q.rest))
        else None
  }

  /** The value of a text, if it is a JSON document. */
  function Document(s: string): Option<Value> {
    match Lex(s)
    case None => None
    case Some(ls) =>
      match ParseValue(ls)
      case None => None
      case Some(p) => if p.rest == [] then Some(p.result) else None
  }

  predicate ValidJson(s: string) {
    Document(s).Some?
  }

  // The grammar looks at string lexemes only as strings.

  /** A lexeme with the body of a string forgotten. */
  function Shape(l: Lexeme): Lexeme {
    if l.Str? then Str([]) else l
  }

  ghost predicate SameShapes(a: seq<Lexeme>, b: seq<Lexeme>) {
    |a| == |b| && forall i | 0 <= i < |a| :: Shape(a[i]) == Shape(b[i])
  }

  ghost predicate Parallel<T>(a: Option<Parsed<T>>, b: Option<Parsed<T>>) {
    (a.Some? <==> b.Some?) && (a.Some? ==> SameShapes(a.value.rest, b.value.rest))
  }

  lemma {:induction false} ValuesAreParallel(a: seq<Lexeme>, b: seq<Lexeme>)
    requires SameShapes(a, b)
    ensures Parallel(ParseValue(a), ParseValue(b))
    decreases |a|, 0
  {
    if a != [] {
      assert Shape(a[0]) == Shape(b[0]);
      assert |a| >= 2 ==> Shape(a[1]) == Shape(b[1]);
      if a[0] == Punct('[') && !(|a| >= 2 && a[1] == Punct(']')) {
        ItemsAreParallel(a[1..], b[1..]);
      } else if a[0] == Punct('{') && !(|a| >= 2 && a[1] == Punct('}')) {
        MembersAreParallel(a[1..], b[1..]);
      }
    }
  }

  lemma HeadShapes(a: seq<Lexeme>, b: seq<Lexeme>)
    requires SameShapes(a, b) && a != []
    ensures Shape(a[0]) == Shape(b[0]) && SameShapes(a[1..], b[1..])
    ensures forall c :: a[0] == Punct(c) <==> b[0] == Punct(c)
  {
  }

  lemma {:induction false} ItemsAreParallel(a: seq<Lexeme>, b: seq<Lexeme>)
    requires SameShapes(a, b)
    ensures Parallel(ParseItems(a), ParseItems(b))
    decreases |a|, 1
  {
    ValuesAreParallel(a, b);
    var p, q := ParseValue(a), ParseValue(b);
    if p.Some? && p.value.rest != [] {
      HeadShapes(p.value.rest, q.value.rest);
      if p.value.rest[0] == Punct(',') {
        ItemsAreParallel(p.value.rest[1..], q.value.rest[1..]);
      }
    }
  }

  lemma {:induction false} MembersAreParallel(a: seq<Lexeme>, b: seq<Lexeme>)
    requires SameShapes(a, b)
    ensures Parallel(ParseMembers(a), ParseMembers(b))
    decreases |a|, 1
  {
    if |a| >= 2 {
      MemberHeads(a, b);
      ValuesAreParallel(a[2..], b[2..]);
      if a[0].Str? && a[1] == Punct(':') && ParseValue(a[2..]).Some? {
        NextMembersAreParallel(a, b, ParseValue(a[2..]).value, ParseValue(b[2..]).value);
      }
    }
  }

  lemma MemberHeads(a: seq<Lexeme>, b: seq<Lexeme>)
    requires SameShapes(a, b) && |a| >= 2
    ensures (a[0].Str? <==> b[0].Str?) && (a[1] == Punct(':') <==> b[1] == Punct(':'))
    ensures SameShapes(a[2..], b[2..])
  {
    assert Shape(a[0]) == Shape(b[0]) && Shape(a[1]) == Shape(b[1]);
  }

  /** What a member leaves to the rest of the object. */
  lemma MembersGoOn(ls: seq<Lexeme>, p: Parsed<Value>)
    requires |ls| >= 2 && ls[0].Str? && ls[1] == Punct(':') && ParseValue(ls[2..]) == Some(p)
    ensures p.rest == [] || (p.rest[0] != Punct('}') && p.rest[0] != Punct(',')) ==> ParseMembers(ls) == None
    ensures p.rest != [] && p.rest[0] == Punct('}') ==> ParseMembers(ls).Some? && ParseMembers(ls).value.rest == p.rest[1..]
    ensures p.rest != [] && p.rest[0] == Punct(',') ==>
              var q := ParseMembers(p.rest[1..]);
              if q.Some? then ParseMembers(ls).Some? && ParseMembers(ls).value.rest == q.value.rest else ParseMembers(ls) == None
  {
  }

  lemma {:induction false} NextMembersAreParallel(a: seq<Lexeme>, b: seq<Lexeme>, p: Parsed<Value>, q: Parsed<Value>)
    requires |a| >= 2 && |b| >= 2 && a[0].Str? && b[0].Str? && a[1] == Punct(':') == b[1]
    requires ParseValue(a[2..]) == Some(p) && ParseValue(b[2..]) == Some(q) && SameShapes(p.rest, q.rest)
    ensures Parallel(ParseMembers(a), ParseMembers(b))
    decreases |a|, 0
  {
    MembersGoOn(a, p);
    MembersGoOn(b, q);
    if p.rest != [] {
      HeadShapes(p.rest, q.rest);
      if p.rest[0] == Punct(',') {
        MembersAreParallel(p.rest[1..], q.rest[1..]);
      }
    }
  }

  // The strings of a document.

  /** Every string of a value, member names included, in the order written. */
  function Strings(v: Value): seq<string> {
    match v
    case Atom(_) => []
    case Text(text) => [text]
    case Arr(items) => ItemStrings(items)
    case Obj(members) => MemberStrings(members)
  }

  function ItemStrings(items: seq<Value>): seq<string> {
    if items == [] then [] else Strings(items[0]) + ItemStrings(items[1..])
  }

  function MemberStrings(members: seq<Member>): seq<string> {
    if members == [] then []
    else [members[0].name] + Strings(members[0].value) + MemberStrings(members[1..])
  }

  /** What the string lexemes decode to, in order. */
  function Texts(ls: seq<Lexeme>): seq<string> {
    if ls == [] then [] else (if ls[0].Str? then [Decode(ls[0].body)] else []) + Texts(ls[1..])
  }

  lemma TextsUnfold(ls: seq<Lexeme>)
    requires ls != []
    ensures Texts(ls) == (if ls[0].Str? then [Decode(ls[0].body)] else []) + Texts(ls[1..])
  {
  }

  /** Parsing neither loses nor invents a string. */
  lemma {:induction false} ValueKeepsTexts(ls: seq<Lexeme>)
    requires ParseValue(ls).Some?
    ensures Texts(ls) == Strings(ParseValue(ls).value.result) + Texts(ParseValue(ls).value.rest)
    decreases |ls|, 0
  {
    TextsUnfold(ls);
    match ls[0]
    case Punct(c) =>
      if |ls| >= 2 && ls[1].Punct? && ls[1].c == (if c == '[' then ']' else '}') {
        TextsUnfold(ls[1..]);
        assert ls[1..][1..] == ls[2..];
      } else if c == '[' {
        ItemsKeepTexts(ls[1..]);
      } else {
        MembersKeepTexts(ls[1..]);
      }
    case _ =>
  }

  lemma ItemStringsCons(v: Value, items: seq<Value>)
    ensures ItemStrings([v] + items) == Strings(v) + ItemStrings(items)
  {
  }

  lemma MemberStringsCons(m: Member, members: seq<Member>)
    ensures MemberStrings([m] + members) == [m.name] + Strings(m.value) + MemberStrings(members)
  {
  }

  lemma Associate(a: seq<string>, b: seq<string>, c: seq<string>)
    ensures a + (b + c) == (a + b) + c
  {
  }

  lemma {:induction false} ItemsKeepTexts(ls: seq<Lexeme>)
    requires ParseItems(ls).Some?
    ensures Texts(ls) == ItemStrings(ParseItems(ls).value.result) + Texts(ParseItems(ls).value.rest)
    decreases |ls|, 1
  {
    var p := ParseValue(ls).value;
    assert Texts(ls) == Strings(p.result) + Texts(p.rest) by {
      ValueKeepsTexts(ls);
    }
    assert Texts(p.rest) == Texts(p.rest[1..]) by {
      TextsUnfold(p.rest);
    }
    if p.rest[0] == Punct(',') {
      var q := ParseItems(p.rest[1..]).value;
      assert Texts(p.rest[1..]) == ItemStrings(q.result) + Texts(q.rest) by {
        ItemsKeepTexts(p.rest[1..]);
      }
      ItemStringsCons(p.result, q.result);
      Associate(Strings(p.result), ItemStrings(q.result), Texts(q.rest));
    } else {
      ItemStringsCons(p.result, []);
    }
  }

  lemma {:induction false} MembersKeepTexts(ls: seq<Lexeme>)
    requires ParseMembers(ls).Some?
    ensures Texts(ls) == MemberStrings(ParseMembers(ls).value.result) + Texts(ParseMembers(ls).value.rest)
    decreases |ls|, 1
  {
    var p := ParseValue(ls[2..]).value;
    var member := Member(Decode(ls[0].body), p.result);
    MemberHeadTexts(ls);
    ValueKeepsTexts(ls[2..]);
    TextsUnfold(p.rest);
    if p.rest[0] == Punct(',') {
      MembersKeepTexts(p.rest[1..]);
      var q := ParseMembers(p.rest[1..]).value;
      MemberStringsCons(member, q.result);
      Associate([member.name] + Strings(p.result), MemberStrings(q.result), Texts(q.rest));
      Associate([member.name], Strings(p.result), Texts(p.rest));
    } else {
      MemberStringsCons(member, []);
      Associate([member.name], Strings(p.result), Texts(p.rest));
    }
  }

  lemma MemberHeadTexts(ls: seq<Lexeme>)
    requires |ls| >= 2 && ls[0].Str? && ls[1] == Punct(':')
    ensures Texts(ls) == [Decode(ls[0].body)] + Texts(ls[2..])
  {
  }

  // The canonical form.

  /** Byte-wise string order, the order json.Marshal sorts member names in. */
  predicate StringLess(a: string, b: string) {
    b != [] && (a == [] || a[0] < b[0] || (a[0] == b[0] && StringLess(a[1..], b[1..])))
  }

  /** Sets a member in a list sorted by name; a repeated name takes the later value. */
  function SetMember(members: seq<Member>, m: Member): seq<Member> {
    if members == [] then [m]
    else if members[0].name == m.name then [m] + members[1..]
    else if StringLess(m.name, members[0].name) then [m] + members
    else [members[0]] + SetMember(members[1..], m)
  }

  /** json.Marshal of json.Unmarshal: objects become maps and come out sorted. */
  function Canonical(v: Value): Value {
    match v
    case Arr(items) => Arr(CanonicalItems(items))
    case Obj(members) => Obj(CanonicalMembers(members, []))
    case _ => v
  }

  function CanonicalItems(items: seq<Value>): seq<Value> {
    if items == [] then [] else [Canonical(items[0])] + CanonicalItems(items[1..])
  }

  function CanonicalMembers(members: seq<Member>, done: seq<Member>): seq<Member>
    decreases members
  {
    if members == [] then done
    else CanonicalMembers(members[1..], SetMember(done, Member(members[0].name, Canonical(members[0].value))))
  }

  /** What a Spec is fingerprinted by: its canonical form, or its bytes if it is no
      JSON. SHA-256 is taken to be collision free. */
  datatype Fingerprint = OfValue(value: Value) | OfBytes(bytes: string)

  function SpecHash(spec: string): Fingerprint {
    match Document(spec)
    case Some(v) => OfValue(Canonical(v))
    case None => OfBytes(spec)
  }
}
