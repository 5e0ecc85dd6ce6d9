/** The lexer and the parser against the grammar of RFC 8259 written as relations: which
    texts are laid out from which lexemes (section 2), and which lexemes denote which
    value (sections 3 to 7). */
module JsonGrammar {
  import opened Model
  import opened JsonStrings
  import opened JsonText
  import opened Tokens
  import opened DocumentSubstitution

  // Numbers.

  predicate Digits(s: string) {
    s != [] && forall i | 0 <= i < |s| :: '0' <= s[i] <= '9'
  }

  /** A sign, an integer without leading zeros, a fraction and an exponent. */
  predicate NumberParts(s: string, sign: string, whole: string, fraction: string, exponent: string) {
    && s == sign + (whole + (fraction + exponent))
    && (sign == "" || sign == "-")
    && (whole == "0" || (Digits(whole) && whole[0] != '0'))
    && (fraction == "" || (fraction[0] == '.' && Digits(fraction[1..])))
    && ExponentPart(exponent)
  }

  predicate ExponentPart(s: string) {
    s == "" || ((s[0] == 'e' || s[0] == 'E') && (Digits(s[1..]) || (|s| >= 2 && (s[1] == '+' || s[1] == '-') && Digits(s[2..]))))
  }

  lemma {:induction false} RunOfDigits(s: string)
    ensures forall i | 0 <= i < DigitRun(s) :: Digit(s[i])
    ensures DigitRun(s) < |s| ==> !Digit(s[DigitRun(s)])
  {
    if s != [] && Digit(s[0]) {
      RunOfDigits(s[1..]);
    }
  }

  lemma {:induction false} RunStops(digits: string, rest: string)
    requires forall i | 0 <= i < |digits| :: Digit(digits[i])
    requires rest == [] || !Digit(rest[0])
    ensures DigitRun(digits + rest) == |digits|
  {
    if digits == [] {
      assert digits + rest == rest;
    } else {
      assert (digits + rest)[1..] == digits[1..] + rest;
      RunStops(digits[1..], rest);
    }
  }

  lemma AllDigitsIff(s: string)
    ensures AllDigits(s) <==> Digits(s)
  {
    RunOfDigits(s);
    if Digits(s) {
      RunStops(s, []);
      assert s + [] == s;
    }
  }

  lemma ExponentIff(s: string)
    ensures ValidExponent(s) <==> ExponentPart(s)
  {
    if s != [] {
      AllDigitsIff(s[1..]);
    }
    if |s| >= 2 {
      AllDigitsIff(s[2..]);
    }
  }

  lemma FractionHasParts(s: string) returns (fraction: string, exponent: string)
    requires ValidFraction(s)
    ensures s == fraction + exponent && ExponentPart(exponent)
    ensures fraction == "" || (fraction[0] == '.' && Digits(fraction[1..]))
  {
    if s != [] && s[0] == '.' {
      var n := 1 + DigitRun(s[1..]);
      fraction, exponent := s[..n], s[n..];
      RunOfDigits(s[1..]);
      assert fraction[1..] == s[1..][..n - 1];
    } else {
      fraction, exponent := "", s;
    }
    ExponentIff(exponent);
  }

  lemma PartsAreFraction(fraction: string, exponent: string)
    requires ExponentPart(exponent) && (fraction == "" || (fraction[0] == '.' && Digits(fraction[1..])))
    ensures ValidFraction(fraction + exponent)
    ensures fraction + exponent != "" ==> !Digit((fraction + exponent)[0])
  {
    var s := fraction + exponent;
    ExponentIff(exponent);
    if fraction == "" {
      assert s == exponent;
    } else {
      assert s[1..] == fraction[1..] + exponent;
      RunStops(fraction[1..], exponent);
      assert s[|fraction|..] == exponent;
    }
  }

  lemma UnsignedHasParts(s: string) returns (whole: string, fraction: string, exponent: string)
    requires ValidUnsigned(s)
    ensures NumberParts(s, "", whole, fraction, exponent)
  {
    var n := if s[0] == '0' then 1 else DigitRun(s);
    RunOfDigits(s);
    fraction, exponent := FractionHasParts(s[n..]);
    whole := s[..n];
    assert s == "" + (whole + (fraction + exponent));
  }

  lemma PartsAreUnsigned(s: string, whole: string, fraction: string, exponent: string)
    requires NumberParts(s, "", whole, fraction, exponent)
    ensures ValidUnsigned(s) && s != "" && s[0] != '-'
  {
    var rest := fraction + exponent;
    PartsAreFraction(fraction, exponent);
    assert s == whole + rest && s[|whole|..] == rest;
    RunStops(whole, rest);
  }

  /** The number grammar of section 6, part by part. */
  lemma NumberIff(s: string)
    ensures ValidNumber(s) <==> exists sign, whole, fraction, exponent :: NumberParts(s, sign, whole, fraction, exponent)
  {
    if ValidNumber(s) {
      if s != [] && s[0] == '-' {
        var whole, fraction, exponent := UnsignedHasParts(s[1..]);
        assert s == "-" + (whole + (fraction + exponent));
        assert NumberParts(s, "-", whole, fraction, exponent);
      } else {
        var whole, fraction, exponent := UnsignedHasParts(s);
      }
    }
    if sign, whole, fraction, exponent :| NumberParts(s, sign, whole, fraction, exponent) {
      var unsigned := whole + (fraction + exponent);
      assert unsigned == "" + unsigned;
      PartsAreUnsigned(unsigned, whole, fraction, exponent);
      if sign == "-" {
        assert s[1..] == unsigned;
      } else {
        assert s == unsigned;
      }
    }
  }

  // Lexemes and white space.

  ghost predicate Proper(l: Lexeme) {
    match l
    case Punct(c) => c in "{}[],:"
    case Word(text) => text == "true" || text == "false" || text == "null"
    case Number(text) => ValidNumber(text) && forall i | 0 <= i < |text| :: NumberByte(text[i])
    case Str(body) => ValidBody(body)
  }

  function Written(l: Lexeme): string {
    match l
    case Punct(c) => [c]
    case Word(text) => text
    case Number(text) => text
    case Str(body) => "\"" + (body + "\"")
  }

  predicate Blank(gap: string) {
    forall i | 0 <= i < |gap| :: gap[i] == ' ' || gap[i] == '\t' || gap[i] == '\n' || gap[i] == '\r'
  }

  /** The lexemes, with white space before each and after the last. */
  function Render(ls: seq<Lexeme>, gaps: seq<string>): string
    requires |gaps| == |ls| + 1
  {
    if ls == [] then gaps[0] else gaps[0] + (Written(ls[0]) + Render(ls[1..], gaps[1..]))
  }

  /** Only two numbers need something between them. */
  ghost predicate Layout(ls: seq<Lexeme>, gaps: seq<string>, s: string) {
    && |gaps| == |ls| + 1 && s == Render(ls, gaps)
    && (forall i | 0 <= i < |ls| :: Proper(ls[i]))
    && (forall i | 0 <= i < |gaps| :: Blank(gaps[i]))
    && (forall i | 0 <= i < |ls| - 1 && ls[i].Number? && ls[i + 1].Number? :: gaps[i + 1] != [])
  }

  lemma LayoutTail(ls: seq<Lexeme>, gaps: seq<string>, s: string)
    requires Layout(ls, gaps, s) && ls != []
    ensures Layout(ls[1..], gaps[1..], Render(ls[1..], gaps[1..]))
    ensures s == gaps[0] + (Written(ls[0]) + Render(ls[1..], gaps[1..]))
  {
  }

  lemma {:induction false} LexSkipsBlank(gap: string, rest: string)
    requires Blank(gap)
    ensures Lex(gap + rest) == Lex(rest)
  {
    if gap == [] {
      assert gap + rest == rest;
    } else {
      assert (gap + rest)[0] == gap[0] && (gap + rest)[1..] == gap[1..] + rest;
      LexSkipsBlank(gap[1..], rest);
      match Lex(rest)
      case None =>
      case Some(ls) => assert [] + ls == ls;
    }
  }

  lemma NumberIsProper(text: string)
    requires Proper(Number(text))
    ensures text != [] && (text[0] == '-' || Digit(text[0])) && NumberRun(text) == |text|
  {
    AllNumberBytes(text);
  }

  lemma {:induction false} AllNumberBytes(text: string)
    requires forall i | 0 <= i < |text| :: NumberByte(text[i])
    ensures NumberRun(text) == |text|
  {
    if text != [] {
      AllNumberBytes(text[1..]);
    }
  }

  lemma NumberIsLexed(text: string, rest: string)
    requires Proper(Number(text)) && (rest == [] || !NumberByte(rest[0]))
    ensures NextLexeme(text + rest) == Some((|text|, [Number(text)]))
  {
    NumberIsProper(text);
    NumberLocal(text, |text|, rest);
    assert text[..|text|] == text && (text + rest)[0] == text[0] && (text + rest)[..|text|] == text;
  }

  lemma PunctIsLexed(c: char, rest: string)
    requires c in "{}[],:"
    ensures NextLexeme([c] + rest) == Some((1, [Punct(c)]))
  {
    assert ([c] + rest)[0] == c;
  }

  lemma WordIsLexed(text: string, rest: string)
    requires text == "true" || text == "false" || text == "null"
    ensures NextLexeme(text + rest) == Some((|text|, [Word(text)]))
  {
    assert (text + rest)[0] == text[0] && text <= text + rest;
  }

  /** A lexeme is read back, whatever follows, unless a number goes on. */
  lemma WrittenIsLexed(l: Lexeme, rest: string)
    requires Proper(l) && (l.Number? ==> rest == [] || !NumberByte(rest[0]))
    ensures Written(l) != [] && NextLexeme(Written(l) + rest) == Some((|Written(l)|, [l]))
  {
    match l
    case Punct(c) => PunctIsLexed(c, rest);
    case Word(text) => WordIsLexed(text, rest);
    case Number(text) => NumberIsProper(text); NumberIsLexed(text, rest);
    case Str(body) =>
      assert Written(l) + rest == "\"" + (body + ("\"" + rest));
      StringLexeme(Written(l) + rest, body, rest);
  }

  /** No lexeme but a number begins with a byte that could go on a number. */
  lemma FirstByte(ls: seq<Lexeme>, gaps: seq<string>, s: string)
    requires Layout(ls, gaps, s) && s != []
    requires ls != [] && ls[0].Number? ==> gaps[0] != []
    ensures !NumberByte(s[0])
  {
    if gaps[0] != [] {
      assert s[0] == gaps[0][0];
    } else {
      assert s[0] == Written(ls[0])[0];
    }
  }

  lemma {:induction false} LayoutIsLexed(ls: seq<Lexeme>, gaps: seq<string>, s: string)
    requires Layout(ls, gaps, s)
    ensures Lex(s) == Some(ls)
  {
    if ls == [] {
      LexSkipsBlank(gaps[0], []);
      assert s == gaps[0] + [];
    } else {
      var rest := Render(ls[1..], gaps[1..]);
      LayoutTail(ls, gaps, s);
      LexSkipsBlank(gaps[0], Written(ls[0]) + rest);
      if ls[0].Number? && rest != [] {
        FirstByte(ls[1..], gaps[1..], rest);
      }
      LayoutIsLexed(ls[1..], gaps[1..], rest);
      LexOne(ls[0], rest);
      assert [ls[0]] + ls[1..] == ls;
    }
  }

  lemma LexOne(l: Lexeme, rest: string)
    requires Proper(l) && (l.Number? ==> rest == [] || !NumberByte(rest[0])) && Lex(rest).Some?
    ensures Lex(Written(l) + rest) == Some([l] + Lex(rest).value)
  {
    var text := Written(l) + rest;
    WrittenIsLexed(l, rest);
    assert text[|Written(l)|..] == rest;
    LexUnfolds(text, |Written(l)|, [l], rest);
  }

  lemma LayoutCons(l: Lexeme, ls: seq<Lexeme>, gaps: seq<string>, rest: string)
    requires Layout(ls, gaps, rest) && Proper(l)
    requires l.Number? && ls != [] && ls[0].Number? ==> gaps[0] != []
    ensures Layout([l] + ls, [""] + gaps, Written(l) + rest)
  {
    var all, spaced := [l] + ls, [""] + gaps;
    assert all[1..] == ls && spaced[1..] == gaps;
    assert Render(all, spaced) == "" + (Written(l) + rest);
  }

  lemma LayoutSpace(c: char, ls: seq<Lexeme>, gaps: seq<string>, rest: string)
    requires Layout(ls, gaps, rest) && IsSpace(c)
    ensures Layout(ls, gaps[0 := [c] + gaps[0]], [c] + rest)
  {
    var spaced := gaps[0 := [c] + gaps[0]];
    assert spaced[1..] == gaps[1..];
    if ls == [] {
      assert Render(ls, spaced) == [c] + rest;
    } else {
      assert ([c] + gaps[0]) + (Written(ls[0]) + Render(ls[1..], gaps[1..])) == [c] + rest;
    }
  }

  /** The lexeme at the front is proper, and the text is it as written and the rest. */
  ghost predicate StartsWith(s: string, n: nat, first: seq<Lexeme>) {
    && n <= |s| && |first| == 1 && Proper(first[0]) && s == Written(first[0]) + s[n..]
    && (first[0].Number? && n < |s| ==> !NumberByte(s[n]))
  }

  lemma StringIsWritten(s: string)
    requires s != [] && NextLexeme(s).Some? && s[0] == '"'
    ensures StartsWith(s, NextLexeme(s).value.0, NextLexeme(s).value.1)
  {
    var k := BodyLength(s[1..]).value;
    var body := s[1..][..k];
    BodyLengthFindsBody(s[1..]);
    QuotesAround(s, k);
    assert NextLexeme(s) == Some((k + 2, [Str(body)]));
  }

  lemma QuotesAround(s: string, k: nat)
    requires k + 2 <= |s| && s[0] == '"' == s[k + 1]
    ensures s[1..][..k] == s[1..k + 1] && s == Written(Str(s[1..k + 1])) + s[k + 2..]
  {
  }

  lemma NumberIsWritten(s: string)
    requires s != [] && NextLexeme(s).Some? && (s[0] == '-' || Digit(s[0]))
    ensures StartsWith(s, NextLexeme(s).value.0, NextLexeme(s).value.1)
  {
    SplitAt(s, NumberRun(s));
  }

  lemma WordIsWritten(s: string, text: string)
    requires text == "true" || text == "false" || text == "null"
    requires s != [] && text <= s && NextLexeme(s) == Some((|text|, [Word(text)]))
    ensures StartsWith(s, |text|, [Word(text)])
  {
    SplitAt(s, |text|);
  }

  lemma OtherIsWritten(s: string)
    requires s != [] && NextLexeme(s).Some? && !IsSpace(s[0]) && s[0] != '"' && s[0] != '-' && !Digit(s[0])
    ensures StartsWith(s, NextLexeme(s).value.0, NextLexeme(s).value.1)
  {
    if s[0] in "{}[],:" {
      SplitAt(s, 1);
    } else if "true" <= s {
      WordIsWritten(s, "true");
    } else if "false" <= s {
      WordIsWritten(s, "false");
    } else {
      WordIsWritten(s, "null");
    }
  }

  lemma LexedIsWritten(s: string)
    requires s != [] && NextLexeme(s).Some? && !IsSpace(s[0])
    ensures StartsWith(s, NextLexeme(s).value.0, NextLexeme(s).value.1)
  {
    if s[0] == '"' {
      StringIsWritten(s);
    } else if s[0] == '-' || Digit(s[0]) {
      NumberIsWritten(s);
    } else {
      OtherIsWritten(s);
    }
  }

  lemma NumberComesFirst(ls: seq<Lexeme>, gaps: seq<string>, s: string)
    requires Layout(ls, gaps, s) && ls != [] && ls[0].Number? && gaps[0] == []
    ensures s != [] && NumberByte(s[0])
  {
    LayoutTail(ls, gaps, s);
    NumberIsProper(ls[0].text);
    assert s[0] == ls[0].text[0];
  }

  lemma {:induction false} LexedIsLayout(s: string) returns (gaps: seq<string>)
    requires Lex(s).Some?
    ensures Layout(Lex(s).value, gaps, s)
    decreases |s|
  {
    if s == [] {
      gaps := [""];
    } else {
      var n, first := NextLexeme(s).value.0, NextLexeme(s).value.1;
      var rest := Lex(s[n..]).value;
      gaps := LexedIsLayout(s[n..]);
      LexUnfolds(s, n, first, s[n..]);
      if IsSpace(s[0]) {
        LayoutSpace(s[0], rest, gaps, s[1..]);
        assert first + rest == rest && s == [s[0]] + s[1..];
        gaps := gaps[0 := [s[0]] + gaps[0]];
      } else {
        LexedIsWritten(s);
        if rest != [] && rest[0].Number? && gaps[0] == [] {
          NumberComesFirst(rest, gaps, s[n..]);
        }
        LayoutCons(first[0], rest, gaps, s[n..]);
        assert first == [first[0]];
        gaps := [""] + gaps;
      }
    }
  }

  /** The lexer reads exactly the texts laid out from the lexemes. */
  lemma LexIff(s: string, ls: seq<Lexeme>)
    ensures Lex(s) == Some(ls) <==> exists gaps :: Layout(ls, gaps, s)
  {
    if Lex(s) == Some(ls) {
      var gaps := LexedIsLayout(s);
    }
    if gaps :| Layout(ls, gaps, s) {
      LayoutIsLexed(ls, gaps, s);
    }
  }

  // Values.

  ghost predicate Denotes(v: Value, ls: seq<Lexeme>)
    decreases v, 0
  {
    match v
    case Atom(text) => ls == [Word(text)] || ls == [Number(text)]
    case Text(text) => |ls| == 1 && ls[0].Str? && Decode(ls[0].body) == text
    case Arr(items) =>
      && |ls| >= 2 && ls[0] == Punct('[') && ls[|ls| - 1] == Punct(']')
      && (if items == [] then |ls| == 2 else ItemsDenote(items, ls[1..|ls| - 1]))
    case Obj(members) =>
      && |ls| >= 2 && ls[0] == Punct('{') && ls[|ls| - 1] == Punct('}')
      && (if members == [] then |ls| == 2 else MembersDenote(members, ls[1..|ls| - 1]))
  }

  /** The items, with commas between them. */
  ghost predicate ItemsDenote(items: seq<Value>, ls: seq<Lexeme>)
    requires items != []
    decreases items, 1
  {
    if |items| == 1 then Denotes(items[0], ls)
    else
      exists n: nat :: n < |ls| && ls[n] == Punct(',') && Denotes(items[0], ls[..n]) && ItemsDenote(items[1..], ls[n + 1..])
  }

  ghost predicate MembersDenote(members: seq<Member>, ls: seq<Lexeme>)
    requires members != []
    decreases members, 1
  {
    if |members| == 1 then MemberDenotes(members[0], ls)
    else
      exists n: nat ::
        n < |ls| && ls[n] == Punct(',') && MemberDenotes(members[0], ls[..n]) && MembersDenote(members[1..], ls[n + 1..])
  }

  ghost predicate MemberDenotes(m: Member, ls: seq<Lexeme>)
    decreases m, 0
  {
    |ls| >= 2 && ls[0].Str? && Decode(ls[0].body) == m.name && ls[1] == Punct(':') && Denotes(m.value, ls[2..])
  }

  lemma FirstLexeme(v: Value, ls: seq<Lexeme>)
    requires Denotes(v, ls)
    ensures ls != [] && ls[0] != Punct(']') && ls[0] != Punct('}')
  {
  }

  lemma FirstOfItems(items: seq<Value>, ls: seq<Lexeme>)
    requires items != [] && ItemsDenote(items, ls)
    ensures ls != [] && ls[0] != Punct(']')
  {
    if |items| == 1 {
      FirstLexeme(items[0], ls);
    } else {
      var n: nat :| n < |ls| && ls[n] == Punct(',') && Denotes(items[0], ls[..n]) && ItemsDenote(items[1..], ls[n + 1..]);
      FirstLexeme(items[0], ls[..n]);
    }
  }

  lemma FirstOfMembers(members: seq<Member>, ls: seq<Lexeme>)
    requires members != [] && MembersDenote(members, ls)
    ensures ls != [] && ls[0].Str?
  {
  }

  /** The parser reads what denotes a value as that value ... */
  lemma {:induction false} DenotedIsParsed(v: Value, ls: seq<Lexeme>, rest: seq<Lexeme>)
    requires Denotes(v, ls)
    ensures ParseValue(ls + rest) == Some(Parsed(v, rest))
    decreases v, 0
  {
    match v
    case Atom(text) =>
    case Text(text) =>
    case Arr(items) =>
      if items != [] {
        FirstOfItems(items, ls[1..|ls| - 1]);
        ItemsAreParsed(items, ls[1..|ls| - 1], rest);
      }
      ArrIsParsed(items, ls, rest);
    case Obj(members) =>
      if members != [] {
        FirstOfMembers(members, ls[1..|ls| - 1]);
        MembersAreParsed(members, ls[1..|ls| - 1], rest);
      }
      ObjIsParsed(members, ls, rest);
  }

  lemma Brackets(ls: seq<Lexeme>, rest: seq<Lexeme>)
    requires |ls| >= 2
    ensures ls + rest == [ls[0]] + (ls[1..|ls| - 1] + ([ls[|ls| - 1]] + rest))
  {
  }

  lemma OpenArr(tail: seq<Lexeme>, items: seq<Value>, rest: seq<Lexeme>)
    requires tail != [] && tail[0] != Punct(']') && ParseItems(tail) == Some(Parsed(items, rest))
    ensures ParseValue([Punct('[')] + tail) == Some(Parsed(Arr(items), rest))
  {
    var all := [Punct('[')] + tail;
    assert all[0] == Punct('[') && all[1] == tail[0] && all[1..] == tail;
  }

  lemma OpenObj(tail: seq<Lexeme>, members: seq<Member>, rest: seq<Lexeme>)
    requires tail != [] && tail[0] != Punct('}') && ParseMembers(tail) == Some(Parsed(members, rest))
    ensures ParseValue([Punct('{')] + tail) == Some(Parsed(Obj(members), rest))
  {
    var all := [Punct('{')] + tail;
    assert all[0] == Punct('{') && all[1] == tail[0] && all[1..] == tail;
  }

  lemma EmptyIsParsed(open: char, v: Value, rest: seq<Lexeme>)
    requires (open == '[' && v == Arr([])) || (open == '{' && v == Obj([]))
    ensures ParseValue([Punct(open)] + ([Punct(if open == '[' then ']' else '}')] + rest)) == Some(Parsed(v, rest))
  {
    var all := [Punct(open)] + ([Punct(if open == '[' then ']' else '}')] + rest);
    assert all[0] == Punct(open) && all[1] == Punct(if open == '[' then ']' else '}') && all[2..] == rest;
  }

  lemma ArrIsParsed(items: seq<Value>, ls: seq<Lexeme>, rest: seq<Lexeme>)
    requires |ls| >= 2 && ls[0] == Punct('[') && ls[|ls| - 1] == Punct(']')
    requires
      var inner := ls[1..|ls| - 1];
      if items == [] then inner == []
      else inner != [] && inner[0] != Punct(']') && ParseItems(inner + ([Punct(']')] + rest)) == Some(Parsed(items, rest))
    ensures ParseValue(ls + rest) == Some(Parsed(Arr(items), rest))
  {
    var inner := ls[1..|ls| - 1];
    Brackets(ls, rest);
    if items == [] {
      EmptyIsParsed('[', Arr([]), rest);
      assert inner + ([Punct(']')] + rest) == [Punct(']')] + rest;
    } else {
      OpenArr(inner + ([Punct(']')] + rest), items, rest);
    }
  }

  lemma ObjIsParsed(members: seq<Member>, ls: seq<Lexeme>, rest: seq<Lexeme>)
    requires |ls| >= 2 && ls[0] == Punct('{') && ls[|ls| - 1] == Punct('}')
    requires
      var inner := ls[1..|ls| - 1];
      if members == [] then inner == []
      else inner != [] && inner[0].Str? && ParseMembers(inner + ([Punct('}')] + rest)) == Some(Parsed(members, rest))
    ensures ParseValue(ls + rest) == Some(Parsed(Obj(members), rest))
  {
    var inner := ls[1..|ls| - 1];
    Brackets(ls, rest);
    if members == [] {
      EmptyIsParsed('{', Obj([]), rest);
      assert inner + ([Punct('}')] + rest) == [Punct('}')] + rest;
    } else {
      OpenObj(inner + ([Punct('}')] + rest), members, rest);
    }
  }

  lemma ItemsEnd(ls: seq<Lexeme>, p: Parsed<Value>, rest: seq<Lexeme>)
    requires ParseValue(ls) == Some(p) && p.rest == [Punct(']')] + rest
    ensures ParseItems(ls) == Some(Parsed([p.result], rest))
  {
  }

  lemma ItemsNext(ls: seq<Lexeme>, p: Parsed<Value>, tail: seq<Lexeme>, q: Parsed<seq<Value>>)
    requires ParseValue(ls) == Some(p) && p.rest == [Punct(',')] + tail && ParseItems(tail) == Some(q)
    ensures ParseItems(ls) == Some(Parsed([p.result] + q.result, q.rest))
  {
    assert p.rest[1..] == tail;
  }

  lemma CutAtComma(ls: seq<Lexeme>, n: nat, after: seq<Lexeme>)
    requires n < |ls| && ls[n] == Punct(',')
    ensures ls + after == ls[..n] + ([Punct(',')] + (ls[n + 1..] + after))
  {
  }

  lemma {:induction false} ItemsAreParsed(items: seq<Value>, ls: seq<Lexeme>, rest: seq<Lexeme>)
    requires items != [] && ItemsDenote(items, ls)
    ensures ParseItems(ls + ([Punct(']')] + rest)) == Some(Parsed(items, rest))
    decreases items, 1
  {
    var close := [Punct(']')] + rest;
    if |items| == 1 {
      DenotedIsParsed(items[0], ls, close);
      ItemsEnd(ls + close, Parsed(items[0], close), rest);
      assert items == [items[0]];
    } else {
      var n: nat :| n < |ls| && ls[n] == Punct(',') && Denotes(items[0], ls[..n]) && ItemsDenote(items[1..], ls[n + 1..]);
      DenotedIsParsed(items[0], ls[..n], [Punct(',')] + (ls[n + 1..] + close));
      ItemsAreParsed(items[1..], ls[n + 1..], rest);
      ItemsJoin(items, ls, n, close, rest);
    }
  }

  lemma ItemsJoin(items: seq<Value>, ls: seq<Lexeme>, n: nat, close: seq<Lexeme>, rest: seq<Lexeme>)
    requires items != [] && n < |ls| && ls[n] == Punct(',')
    requires
      var tail := ls[n + 1..] + close;
      && ParseValue(ls[..n] + ([Punct(',')] + tail)) == Some(Parsed(items[0], [Punct(',')] + tail))
      && ParseItems(tail) == Some(Parsed(items[1..], rest))
    ensures ParseItems(ls + close) == Some(Parsed(items, rest))
  {
    var tail := ls[n + 1..] + close;
    CutAtComma(ls, n, close);
    ItemsNext(ls + close, Parsed(items[0], [Punct(',')] + tail), tail, Parsed(items[1..], rest));
    assert items == [items[0]] + items[1..];
  }

  /** The text starts with a member, and `rest` follows. */
  ghost predicate MemberFirst(ls: seq<Lexeme>, m: Member, rest: seq<Lexeme>) {
    && |ls| >= 2 && ls[0].Str? && ls[1] == Punct(':') && Decode(ls[0].body) == m.name
    && ParseValue(ls[2..]) == Some(Parsed(m.value, rest))
  }

  lemma MembersEnd(ls: seq<Lexeme>, m: Member, rest: seq<Lexeme>)
    requires MemberFirst(ls, m, [Punct('}')] + rest)
    ensures ParseMembers(ls) == Some(Parsed([m], rest))
  {
  }

  lemma MembersNext(ls: seq<Lexeme>, m: Member, tail: seq<Lexeme>, q: Parsed<seq<Member>>)
    requires MemberFirst(ls, m, [Punct(',')] + tail) && ParseMembers(tail) == Some(q)
    ensures ParseMembers(ls) == Some(Parsed([m] + q.result, q.rest))
  {
    assert ([Punct(',')] + tail)[1..] == tail;
  }

  lemma {:induction false} MembersAreParsed(members: seq<Member>, ls: seq<Lexeme>, rest: seq<Lexeme>)
    requires members != [] && MembersDenote(members, ls)
    ensures ParseMembers(ls + ([Punct('}')] + rest)) == Some(Parsed(members, rest))
    decreases members, 1
  {
    var close := [Punct('}')] + rest;
    if |members| == 1 {
      MemberIsParsed(members[0], ls, close);
      MembersEnd(ls + close, members[0], rest);
      assert members == [members[0]];
    } else {
      var n: nat :|
        n < |ls| && ls[n] == Punct(',') && MemberDenotes(members[0], ls[..n]) && MembersDenote(members[1..], ls[n + 1..]);
      MemberIsParsed(members[0], ls[..n], [Punct(',')] + (ls[n + 1..] + close));
      MembersAreParsed(members[1..], ls[n + 1..], rest);
      MembersJoin(members, ls, n, close, rest);
    }
  }

  lemma MembersJoin(members: seq<Member>, ls: seq<Lexeme>, n: nat, close: seq<Lexeme>, rest: seq<Lexeme>)
    requires members != [] && n < |ls| && ls[n] == Punct(',')
    requires
      var tail := ls[n + 1..] + close;
      && MemberFirst(ls[..n] + ([Punct(',')] + tail), members[0], [Punct(',')] + tail)
      && ParseMembers(tail) == Some(Parsed(members[1..], rest))
    ensures ParseMembers(ls + close) == Some(Parsed(members, rest))
  {
    var tail := ls[n + 1..] + close;
    CutAtComma(ls, n, close);
    MembersNext(ls + close, members[0], tail, Parsed(members[1..], rest));
    assert members == [members[0]] + members[1..];
  }

  lemma {:induction false} MemberIsParsed(m: Member, ls: seq<Lexeme>, rest: seq<Lexeme>)
    requires MemberDenotes(m, ls)
    ensures MemberFirst(ls + rest, m, rest)
    decreases m, 0
  {
    DenotedIsParsed(m.value, ls[2..], rest);
    assert (ls + rest)[2..] == ls[2..] + rest;
  }

  // ... and reads nothing else.

  /** What was consumed of `ls` when `rest` is left. */
  function Consumed(ls: seq<Lexeme>, rest: seq<Lexeme>): seq<Lexeme>
    requires |rest| <= |ls|
  {
    ls[..|ls| - |rest|]
  }

  lemma {:induction false} ParsedIsDenoted(ls: seq<Lexeme>)
    requires ParseValue(ls).Some?
    ensures Denotes(ParseValue(ls).value.result, Consumed(ls, ParseValue(ls).value.rest))
    decreases |ls|, 0
  {
    var p := ParseValue(ls).value;
    if !ls[0].Punct? || (|ls| >= 2 && ls[1] == Punct(if ls[0].c == '[' then ']' else '}')) {
      assert Consumed(ls, p.rest)[0] == ls[0];
    } else if ls[0].c == '[' {
      ParsedItemsDenoted(ls[1..]);
      ArrIsDenoted(ls, ParseItems(ls[1..]).value);
    } else {
      ParsedMembersDenoted(ls[1..]);
      ObjIsDenoted(ls, ParseMembers(ls[1..]).value);
    }
  }

  lemma ArrIsDenoted(ls: seq<Lexeme>, p: Parsed<seq<Value>>)
    requires ls != [] && ls[0] == Punct('[') && |p.rest| < |ls| && ItemsThen(p.result, Consumed(ls[1..], p.rest))
    ensures Denotes(Arr(p.result), Consumed(ls, p.rest))
  {
    var used := Consumed(ls, p.rest);
    assert used == [ls[0]] + Consumed(ls[1..], p.rest);
    assert used[1..|used| - 1] == Consumed(ls[1..], p.rest)[..|used| - 2];
  }

  lemma ObjIsDenoted(ls: seq<Lexeme>, p: Parsed<seq<Member>>)
    requires ls != [] && ls[0] == Punct('{') && |p.rest| < |ls| && MembersThen(p.result, Consumed(ls[1..], p.rest))
    ensures Denotes(Obj(p.result), Consumed(ls, p.rest))
  {
    var used := Consumed(ls, p.rest);
    assert used == [ls[0]] + Consumed(ls[1..], p.rest);
    assert used[1..|used| - 1] == Consumed(ls[1..], p.rest)[..|used| - 2];
  }

  /** The list that was parsed, and the bracket that closes it. */
  ghost predicate ItemsThen(items: seq<Value>, used: seq<Lexeme>) {
    items != [] && used != [] && used[|used| - 1] == Punct(']') && ItemsDenote(items, used[..|used| - 1])
  }

  ghost predicate MembersThen(members: seq<Member>, used: seq<Lexeme>) {
    members != [] && used != [] && used[|used| - 1] == Punct('}') && MembersDenote(members, used[..|used| - 1])
  }

  /** What the first part and the parts after the comma consume. */
  lemma ConsumedParts(ls: seq<Lexeme>, after: seq<Lexeme>, rest: seq<Lexeme>)
    requires Suffix(after, ls) && after != [] && |rest| < |after|
    ensures
      var n := |ls| - |after|;
      && Consumed(ls, rest) == ls[..n] + ([after[0]] + Consumed(after[1..], rest))
      && Consumed(ls, after[1..]) == ls[..n] + [after[0]]
  {
    var n, m := |ls| - |after|, |ls| - |rest|;
    assert ls == ls[..n] + ([after[0]] + after[1..]);
    assert ls[..m] == ls[..n] + ([after[0]] + after[1..][..m - n - 1]);
  }

  /** The first item, and what it leaves. */
  lemma ItemsGoOn(ls: seq<Lexeme>) returns (p: Parsed<Value>)
    requires ParseItems(ls).Some?
    ensures ParseValue(ls) == Some(p) && p.rest != [] && |p.rest| < |ls|
    ensures p.rest[0] == Punct(',') || p.rest[0] == Punct(']')
    ensures p.rest[0] == Punct(']') ==> ParseItems(ls).value == Parsed([p.result], p.rest[1..])
    ensures p.rest[0] == Punct(',') ==>
              var q := ParseItems(p.rest[1..]);
              q.Some? && ParseItems(ls).value == Parsed([p.result] + q.value.result, q.value.rest)
  {
    p := ParseValue(ls).value;
  }

  lemma {:induction false} ParsedItemsDenoted(ls: seq<Lexeme>)
    requires ParseItems(ls).Some?
    ensures ItemsThen(ParseItems(ls).value.result, Consumed(ls, ParseItems(ls).value.rest))
    decreases |ls|, 1
  {
    var p := ItemsGoOn(ls);
    ParsedIsDenoted(ls);
    if p.rest[0] == Punct(',') {
      ParsedItemsDenoted(p.rest[1..]);
      ItemsThenMore(ls, p, ParseItems(p.rest[1..]).value);
    } else {
      ConsumedParts(ls, p.rest, p.rest[1..]);
      ItemsOne(p.result, Consumed(ls, p.rest));
    }
  }

  lemma ItemsThenMore(ls: seq<Lexeme>, p: Parsed<Value>, q: Parsed<seq<Value>>)
    requires Suffix(p.rest, ls) && p.rest != [] && p.rest[0] == Punct(',') && |q.rest| < |p.rest|
    requires Denotes(p.result, Consumed(ls, p.rest)) && ItemsThen(q.result, Consumed(p.rest[1..], q.rest))
    ensures ItemsThen([p.result] + q.result, Consumed(ls, q.rest))
  {
    ConsumedParts(ls, p.rest, q.rest);
    ItemsCons(p.result, q.result, Consumed(ls, p.rest), Consumed(p.rest[1..], q.rest));
  }

  lemma ItemsOne(item: Value, ls: seq<Lexeme>)
    requires Denotes(item, ls)
    ensures ItemsThen([item], ls + [Punct(']')])
  {
    assert (ls + [Punct(']')])[..|ls|] == ls;
  }

  lemma PartsAtComma(ls: seq<Lexeme>, used: seq<Lexeme>)
    requires used != []
    ensures
      var all := ls + ([Punct(',')] + used);
      var inner := all[..|all| - 1];
      && |ls| < |inner| && inner[|ls|] == Punct(',') && inner[..|ls|] == ls && inner[|ls| + 1..] == used[..|used| - 1]
      && all[|all| - 1] == used[|used| - 1]
  {
  }

  lemma ItemsCons(item: Value, items: seq<Value>, ls: seq<Lexeme>, used: seq<Lexeme>)
    requires Denotes(item, ls) && ItemsThen(items, used)
    ensures ItemsThen([item] + items, ls + ([Punct(',')] + used))
  {
    PartsAtComma(ls, used);
    assert ([item] + items)[1..] == items;
  }

  lemma {:induction false} ParsedMembersDenoted(ls: seq<Lexeme>)
    requires ParseMembers(ls).Some?
    ensures MembersThen(ParseMembers(ls).value.result, Consumed(ls, ParseMembers(ls).value.rest))
    decreases |ls|, 1
  {
    var p := ParseValue(ls[2..]).value;
    var member := Member(Decode(ls[0].body), p.result);
    ParsedIsDenoted(ls[2..]);
    AfterColon(ls, member, p.rest);
    if p.rest[0] == Punct(',') {
      var q := ParseMembers(p.rest[1..]).value;
      ParsedMembersDenoted(p.rest[1..]);
      ConsumedParts(ls, p.rest, q.rest);
      MembersCons(member, q.result, Consumed(ls, p.rest), Consumed(p.rest[1..], q.rest));
    } else {
      ConsumedParts(ls, p.rest, p.rest[1..]);
      MembersOne(member, Consumed(ls, p.rest));
    }
  }

  lemma AfterColon(ls: seq<Lexeme>, m: Member, rest: seq<Lexeme>)
    requires |ls| >= 2 && ls[0].Str? && ls[1] == Punct(':') && Decode(ls[0].body) == m.name
    requires Suffix(rest, ls[2..]) && Denotes(m.value, Consumed(ls[2..], rest))
    ensures MemberDenotes(m, Consumed(ls, rest)) && Suffix(rest, ls)
  {
    assert Consumed(ls, rest)[2..] == Consumed(ls[2..], rest);
  }

  lemma MembersOne(m: Member, ls: seq<Lexeme>)
    requires MemberDenotes(m, ls)
    ensures MembersThen([m], ls + [Punct('}')])
  {
    assert (ls + [Punct('}')])[..|ls|] == ls;
  }

  lemma MembersCons(m: Member, members: seq<Member>, ls: seq<Lexeme>, used: seq<Lexeme>)
    requires MemberDenotes(m, ls) && MembersThen(members, used)
    ensures MembersThen([m] + members, ls + ([Punct(',')] + used))
  {
    PartsAtComma(ls, used);
    assert ([m] + members)[1..] == members;
  }

  /** A text is a document with a value exactly when it is laid out from lexemes that
      denote the value. */
  lemma DocumentIff(s: string, v: Value)
    ensures Document(s) == Some(v) <==> exists ls, gaps :: Layout(ls, gaps, s) && Denotes(v, ls)
  {
    if Document(s) == Some(v) {
      var ls := Lex(s).value;
      var gaps := LexedIsLayout(s);
      ParsedIsDenoted(ls);
      assert Consumed(ls, []) == ls;
    }
    if ls, gaps :| Layout(ls, gaps, s) && Denotes(v, ls) {
      LayoutIsLexed(ls, gaps, s);
      DenotedIsParsed(v, ls, []);
      assert ls + [] == ls;
    }
  }
}
