/** Substituting reference values into a Spec keeps it JSON and means what it says
    (core/api/resource.go:65-82, core/reconcile/reconciler.go:258-265). */
module Substitution {
  import opened JsonStrings
  import opened Tokens

  // Inside one string.

  /** What a piece of a string body contributes to the decoded string. */
  function Meaning(piece: Piece, values: map<string, string>): string {
    match piece
    case Literal(text) => Decode(text)
    case Hole(name) => if name in values then Sanitize(values[name]) else TokenText(name)
  }

  function MeaningAll(pieces: seq<Piece>, values: map<string, string>): string {
    if pieces == [] then [] else Meaning(pieces[0], values) + MeaningAll(pieces[1..], values)
  }

  function FirstToken(s: string): (n: nat)
    ensures n <= |s|
    ensures n < |s| ==> TokenLength(s[n..]) > 0 && s[n] == '$'
  {
    if s == [] || TokenLength(s) > 0 then 0 else 1 + FirstToken(s[1..])
  }

  /** The pieces of a text: what precedes its first token, then the rest. */
  lemma PrependToLiteral(c: char, text: string, rest: seq<Piece>)
    ensures Prepend(c, [Literal(text)] + rest) == [Literal([c] + text)] + rest
  {
    assert ([Literal(text)] + rest)[1..] == rest;
  }

  lemma SlicesOfTail(s: string, n: nat)
    requires 0 < n <= |s|
    ensures s[1..][n - 1..] == s[n..] && [s[0]] + s[1..][..n - 1] == s[..n]
  {
  }

  lemma PiecesOfHead(s: string)
    requires FirstToken(s) == 1
    ensures Pieces(s) == [Literal([s[0]])] + Pieces(s[1..])
  {
    assert Pieces(s[1..]) == [] || Pieces(s[1..])[0].Hole?;
  }

  lemma {:induction false} PiecesFromFirstToken(s: string)
    requires FirstToken(s) > 0
    ensures Pieces(s) == [Literal(s[..FirstToken(s)])] + Pieces(s[FirstToken(s)..])
    decreases |s|
  {
    var n := FirstToken(s);
    SlicesOfTail(s, n);
    if n > 1 {
      PiecesFromFirstToken(s[1..]);
      PrependToLiteral(s[0], s[1..][..n - 1], Pieces(s[n..]));
    } else {
      PiecesOfHead(s);
      assert s[..1] == [s[0]];
    }
  }

  /** `$` stands only between items, so a body splits there. */
  lemma {:induction false} BodySplitsAtDollar(s: string, n: nat)
    requires ValidBody(s) && n <= |s| && (n == |s| || s[n] == '$')
    ensures ValidBody(s[..n]) && ValidBody(s[n..])
    decreases n
  {
    if n == 0 {
      assert s[0..] == s && s[..0] == [];
    } else {
      var k := ItemLength(s);
      ItemEndsBefore(s, n);
      BodySplitsAtDollar(s[k..], n - k);
      assert s[k..][n - k..] == s[n..];
      assert s[k..][..n - k] == s[..n][k..];
    }
  }

  lemma ItemEndsBefore(s: string, n: nat)
    requires ValidBody(s) && 0 < n <= |s| && (n == |s| || s[n] == '$')
    ensures ItemLength(s) <= n && ItemLength(s[..n]) == ItemLength(s)
  {
  }

  lemma HeadAndSlices(s: string, n: nat, rest: string)
    requires 0 < n <= |s|
    ensures s[1..][n - 1..] == s[n..] && [s[0]] + (s[1..][..n - 1] + rest) == s[..n] + rest
  {
  }

  lemma {:induction false} CopyUpTo(s: string, n: nat, values: map<string, string>)
    requires n <= |s| && (forall i | 0 <= i < n :: TokenLength(s[i..]) == 0)
    ensures SubstituteReferences(s, values) == s[..n] + SubstituteReferences(s[n..], values)
    decreases n
  {
    if n == 0 {
      assert s[0..] == s;
    } else {
      assert s[0..] == s;
      forall i | 0 <= i < n - 1 ensures TokenLength(s[1..][i..]) == 0 {
        assert s[1..][i..] == s[i + 1..];
      }
      CopyUpTo(s[1..], n - 1, values);
      HeadAndSlices(s, n, SubstituteReferences(s[n..], values));
    }
  }

  lemma {:induction false} NoTokenBeforeFirst(s: string, i: nat)
    requires i < FirstToken(s)
    ensures TokenLength(s[i..]) == 0
  {
    if i == 0 {
      assert s[0..] == s;
    } else {
      NoTokenBeforeFirst(s[1..], i - 1);
      assert s[1..][i - 1..] == s[i..];
    }
  }

  lemma CopyToFirstToken(s: string, values: map<string, string>)
    ensures SubstituteReferences(s, values) == s[..FirstToken(s)] + SubstituteReferences(s[FirstToken(s)..], values)
  {
    forall i | 0 <= i < FirstToken(s) ensures TokenLength(s[i..]) == 0 {
      NoTokenBeforeFirst(s, i);
    }
    CopyUpTo(s, FirstToken(s), values);
  }

  ghost predicate Plain(text: string) {
    forall i | 0 <= i < |text| :: text[i] != '"' && text[i] != '\\' && 0x20 <= text[i] as int < 0x80
  }

  lemma {:induction false} PlainTextIsValid(text: string)
    requires Plain(text)
    ensures ValidBody(text)
  {
    if text != [] {
      PlainTextIsValid(text[1..]);
    }
  }

  lemma {:induction false} PlainTextDecodes(text: string, rest: string)
    requires Plain(text)
    ensures Decode(text + rest) == text + Decode(rest)
  {
    if text == [] {
      assert text + rest == rest;
    } else {
      assert Plain(text[1..]);
      assert text + rest == [text[0]] + (text[1..] + rest);
      calc {
        Decode(text + rest);
        { PlainByteDecodes(text[0], text[1..] + rest); }
        [text[0]] + Decode(text[1..] + rest);
        { PlainTextDecodes(text[1..], rest); }
        [text[0]] + (text[1..] + Decode(rest));
        text + Decode(rest);
      }
    }
  }

  lemma PlainByteDecodes(c: char, rest: string)
    requires c != '\\' && (c as int) < 0x80
    ensures Decode([c] + rest) == [c] + Decode(rest)
  {
  }

  /** What replaces a token is a legal piece of a body, wherever it lands. */
  lemma ReplacementDecodes(s: string, values: map<string, string>, rest: string)
    requires TokenLength(s) > 0
    ensures
      var name := TokenName(s);
      && ValidBody(Replacement(name, values))
      && Decode(Replacement(name, values) + rest) == Meaning(Hole(name), values) + Decode(rest)
      && ((name in values ==> values[name] != []) ==> SafeStart(Replacement(name, values) + rest))
  {
    var name := TokenName(s);
    if name in values {
      EscapeDecodes(values[name], rest);
    } else {
      TokenShape(s);
      assert Plain(TokenText(name));
      PlainTextIsValid(TokenText(name));
      PlainTextDecodes(TokenText(name), rest);
      assert (TokenText(name) + rest)[0] == '$';
    }
  }

  lemma TokenLeavesBody(s: string)
    requires ValidBody(s) && TokenLength(s) > 0
    ensures ValidBody(s[TokenLength(s)..])
  {
    TokenShape(s);
    ValidBodyDrop(s, TokenLength(s));
  }

  /** A substituted string body is a string body. */
  lemma {:induction false} SubstitutedBodyIsValid(body: string, values: map<string, string>)
    requires ValidBody(body)
    ensures ValidBody(SubstituteReferences(body, values))
    decreases |body|
  {
    var n := FirstToken(body);
    BodySplitsAtDollar(body, n);
    CopyToFirstToken(body, values);
    if n < |body| {
      var s := body[n..];
      TokenLeavesBody(s);
      var rest := s[TokenLength(s)..];
      SubstitutedBodyIsValid(rest, values);
      ReplacementDecodes(s, values, []);
      ValidBodyConcat(Replacement(TokenName(s), values), SubstituteReferences(rest, values));
    }
    ValidBodyConcat(body[..n], SubstituteReferences(body[n..], values));
  }

  /** It decodes to the original literal segments interleaved with the raw values
      (valid UTF-8 values; stray bytes become U+FFFD). The values are non-empty
      because resolution waits for an empty one. */
  lemma {:induction false} SubstitutedStringDecodes(body: string, values: map<string, string>)
    requires ValidBody(body) && forall name | name in values :: values[name] != []
    ensures Decode(SubstituteReferences(body, values)) == MeaningAll(Pieces(body), values)
    decreases |body|
  {
    var n := FirstToken(body);
    BodySplitsAtDollar(body, n);
    CopyToFirstToken(body, values);
    var s := body[n..];
    if s != [] {
      TokenLeavesBody(s);
      var rest := s[TokenLength(s)..];
      SubstitutedStringDecodes(rest, values);
      ReplacementDecodes(s, values, SubstituteReferences(rest, values));
      PiecesOfToken(s);
    }
    if n == 0 {
      assert s == body && body[..0] + SubstituteReferences(s, values) == SubstituteReferences(s, values);
    } else {
      PiecesFromFirstToken(body);
      assert Pieces(body)[1..] == Pieces(s);
      DecodeConcat(body[..n], SubstituteReferences(s, values));
    }
  }

  // The guard on empty values matters: an empty value lets two unpaired surrogate
  // escapes join into one character, which neither segment holds.

  const HIGH := "\\ud83d"
  const LOW := "\\ude00"

  lemma SurrogatesAlone()
    ensures ValidBody(HIGH) && ValidBody(LOW)
    ensures |Decode(HIGH)| == 3 && |Decode(LOW)| == 3 && |Decode(HIGH + LOW)| == 4
  {
    assert UnicodeEscape(HIGH) && UnicodeEscape(LOW) && UnicodeEscape(HIGH + LOW);
    assert HIGH[6..] == [] && LOW[6..] == [];
    assert (HIGH + LOW)[6..] == LOW && (HIGH + LOW)[12..] == [];
    assert DecodeStep(HIGH + LOW).0 == 12;
  }

  lemma TokenBeforeLow()
    ensures
      var s := TokenText("a") + LOW;
      TokenLength(s) == 8 && TokenName(s) == "a" && s[8..] == LOW && Plain(TokenText("a"))
  {
    assert ValidReferenceName("a");
    TokenTextMatches("a", LOW);
    TokenShape(TokenText("a") + LOW);
    assert (TokenText("a") + LOW)[..8] == TokenText("a");
  }

  lemma SubstituteEmptyValue()
    ensures SubstituteReferences(HIGH + (TokenText("a") + LOW), map["a" := ""]) == HIGH + LOW
  {
    var s := TokenText("a") + LOW;
    TokenBeforeLow();
    NoDollarNoToken(HIGH, s, map["a" := ""]);
    NoDollarNoToken(LOW, [], map["a" := ""]);
    assert LOW + [] == LOW;
    assert SubstituteReferences(s, map["a" := ""]) == Escape("") + LOW;
    assert Escape("") + LOW == LOW;
  }

  lemma PiecesAroundToken()
    ensures Pieces(HIGH + (TokenText("a") + LOW)) == [Literal(HIGH), Hole("a"), Literal(LOW)]
  {
    var s := TokenText("a") + LOW;
    TokenBeforeLow();
    LiteralPieces(HIGH, s);
    LiteralPieces(LOW, []);
    assert LOW + [] == LOW;
    assert Pieces(s) == [Hole("a")] + Pieces(LOW);
  }

  lemma BodyAroundToken()
    ensures ValidBody(HIGH + (TokenText("a") + LOW))
  {
    TokenBeforeLow();
    SurrogatesAlone();
    PlainTextIsValid(TokenText("a"));
    ValidBodyConcat(TokenText("a"), LOW);
    ValidBodyConcat(HIGH, TokenText("a") + LOW);
  }

  lemma EmptyValueJoinsSurrogates()
    ensures
      var body := HIGH + (TokenText("a") + LOW);
      var values := map["a" := ""];
      && ValidBody(body)
      && Decode(SubstituteReferences(body, values)) != MeaningAll(Pieces(body), values)
  {
    SurrogatesAlone();
    BodyAroundToken();
    PiecesAroundToken();
    SubstituteEmptyValue();
    var pieces := [Literal(HIGH), Hole("a"), Literal(LOW)];
    assert pieces[1..] == [Hole("a"), Literal(LOW)] && pieces[1..][1..] == [Literal(LOW)];
    assert MeaningAll([Literal(LOW)], map["a" := ""]) == Decode(LOW) + [];
    assert MeaningAll(pieces[1..], map["a" := ""]) == Sanitize("") + (Decode(LOW) + []);
    assert |MeaningAll(pieces, map["a" := ""])| == 6;
  }

  lemma NoDollarNoToken(a: string, b: string, values: map<string, string>)
    requires '$' !in a
    ensures SubstituteReferences(a + b, values) == a + SubstituteReferences(b, values)
  {
    forall i | 0 <= i < |a| ensures TokenLength((a + b)[i..]) == 0 {
      assert (a + b)[i..][0] == a[i];
    }
    CopyUpTo(a + b, |a|, values);
    assert (a + b)[..|a|] == a && (a + b)[|a|..] == b;
  }

  lemma {:induction false} LiteralPieces(a: string, b: string)
    requires a != [] && '$' !in a && (b == [] || TokenLength(b) > 0)
    ensures Pieces(a + b) == [Literal(a)] + Pieces(b)
  {
    PiecesUnfold(a, b);
    if |a| == 1 {
      assert a[1..] + b == b && a == [a[0]];
      assert b != [] ==> Pieces(b)[0].Hole?;
    } else {
      LiteralPieces(a[1..], b);
      PrependToLiteral(a[0], a[1..], Pieces(b));
      assert [a[0]] + a[1..] == a;
    }
  }

  lemma PiecesUnfold(a: string, b: string)
    requires a != [] && a[0] != '$'
    ensures Pieces(a + b) == Prepend(a[0], Pieces(a[1..] + b))
  {
    assert (a + b)[0] == a[0] && (a + b)[1..] == a[1..] + b;
  }
}
