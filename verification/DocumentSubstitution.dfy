/** Substitution over a whole document: it stays JSON with the same lexemes, and a
    changed value shows in the fingerprint (core/api/resource.go:65-82,
    providers/docker/provider.go:91, 203-222). */
module DocumentSubstitution {
  import opened Model
  import opened JsonStrings
  import opened JsonText
  import opened Tokens
  import opened Substitution

  function SubstituteLexeme(l: Lexeme, values: map<string, string>): Lexeme {
    if l.Str? then Str(SubstituteReferences(l.body, values)) else l
  }

  function SubstituteLexemes(ls: seq<Lexeme>, values: map<string, string>): seq<Lexeme> {
    seq(|ls|, i requires 0 <= i < |ls| => SubstituteLexeme(ls[i], values))
  }

  // The lexer and string bodies.

  lemma SliceOfTail(s: string, k: nat, n: nat)
    requires k <= n <= |s|
    ensures s[k..][..n - k] == s[..n][k..] == s[k..n]
  {
  }

  lemma {:induction false} BodyLengthFindsBody(s: string)
    requires BodyLength(s).Some?
    ensures ValidBody(s[..BodyLength(s).value])
    decreases |s|
  {
    var n := BodyLength(s).value;
    if s[0] != '"' {
      var k := ItemLength(s);
      BodyLengthFindsBody(s[k..]);
      SliceOfTail(s, k, n);
      assert ItemLength(s[..n]) == k;
    }
  }

  lemma {:induction false} BodyLengthOfBody(body: string, rest: string)
    requires ValidBody(body)
    ensures BodyLength(body + ("\"" + rest)) == Some(|body|)
    decreases |body|
  {
    if body == [] {
      assert body + ("\"" + rest) == "\"" + rest;
    } else {
      ItemIsLocal(body, "\"" + rest);
      assert (body + ("\"" + rest))[0] == body[0];
      BodyLengthOfBody(body[ItemLength(body)..], rest);
    }
  }

  lemma TokenEndsBeforeQuote(a: string, rest: string)
    requires a != []
    ensures TokenLength(a + ("\"" + rest)) == TokenLength(a)
    ensures TokenLength(a) > 0 ==> TokenName(a + ("\"" + rest)) == TokenName(a)
  {
    var s := a + ("\"" + rest);
    assert s[|a|] == '"';
    if PREFIX <= s {
      assert forall i | 0 <= i < 6 :: s[i] == PREFIX[i];
      assert |a| >= 6 && s[6..] == a[6..] + ("\"" + rest);
      NameLengthIsLocal(a[6..], "\"" + rest);
      var n := NameLength(a[6..]);
      assert s[6..6 + n] == a[6..6 + n];
    }
  }

  lemma SubstituteUnfolds(s: string, cut: nat, out: string, rest: string, values: map<string, string>)
    requires s != [] && cut <= |s| && s[cut..] == rest
    requires if TokenLength(s) > 0 then cut == TokenLength(s) && out == Replacement(TokenName(s), values)
             else cut == 1 && out == [s[0]]
    ensures SubstituteReferences(s, values) == out + SubstituteReferences(rest, values)
  {
  }

  lemma StepBeforeQuote(body: string, rest: string, values: map<string, string>) returns (cut: nat, out: string)
    requires body != []
    ensures 0 < cut <= |body|
    ensures SubstituteReferences(body, values) == out + SubstituteReferences(body[cut..], values)
    ensures SubstituteReferences(body + ("\"" + rest), values) == out + SubstituteReferences(body[cut..] + ("\"" + rest), values)
  {
    TokenEndsBeforeQuote(body, rest);
    if TokenLength(body) > 0 {
      cut, out := TokenLength(body), Replacement(TokenName(body), values);
    } else {
      cut, out := 1, [body[0]];
    }
    SubstituteUnfolds(body, cut, out, body[cut..], values);
    TailOfConcat(body, "\"" + rest, cut);
    SubstituteUnfolds(body + ("\"" + rest), cut, out, body[cut..] + ("\"" + rest), values);
  }

  lemma {:induction false} SubstituteThroughQuote(body: string, rest: string, values: map<string, string>)
    ensures SubstituteReferences(body + ("\"" + rest), values)
         == SubstituteReferences(body, values) + ("\"" + SubstituteReferences(rest, values))
    decreases |body|
  {
    if body == [] {
      NoDollarNoToken("\"", rest, values);
      assert [] + ("\"" + rest) == "\"" + rest;
    } else {
      var cut, out := StepBeforeQuote(body, rest, values);
      SubstituteThroughQuote(body[cut..], rest, values);
      Regroup(out, SubstituteReferences(body[cut..], values), "\"" + SubstituteReferences(rest, values));
    }
  }

  /** `s` is the string lexeme with this body, followed by `rest`. */
  ghost predicate Quoted(s: string, body: string, rest: string) {
    s == "\"" + (body + ("\"" + rest))
  }

  lemma QuotedParts(s: string, body: string, rest: string)
    requires Quoted(s, body, rest)
    ensures s[0] == '"' && s[1..] == body + ("\"" + rest)
    ensures |s| == |body| + |rest| + 2 && s[1..|body| + 1] == body && s[|body| + 2..] == rest
  {
  }

  lemma StringLexeme(s: string, body: string, rest: string)
    requires Quoted(s, body, rest) && ValidBody(body)
    ensures NextLexeme(s) == Some((|body| + 2, [Str(body)]))
  {
    QuotedParts(s, body, rest);
    BodyLengthOfBody(body, rest);
  }

  lemma NumberLocal(s: string, n: nat, rest: string)
    requires n == NumberRun(s) && (rest == [] || !NumberByte(rest[0]))
    ensures NumberRun(s[..n] + rest) == n
    decreases n
  {
    if n == 0 {
      assert s[..0] + rest == rest;
    } else {
      assert (s[..n] + rest)[0] == s[0] && (s[..n] + rest)[1..] == s[1..][..n - 1] + rest;
      NumberLocal(s[1..], n - 1, rest);
    }
  }

  /** A lexeme other than a string is recognised by its own bytes, provided what
      follows starts with the same byte. */
  lemma OtherLexemeIsLocal(s: string, rest: string)
    requires s != [] && NextLexeme(s).Some? && s[0] != '"'
    requires
      var n := NextLexeme(s).value.0;
      (s[n..] == [] <==> rest == []) && (rest != [] ==> rest[0] == s[n..][0])
    ensures
      var n := NextLexeme(s).value.0;
      && NextLexeme(s[..n] + rest) == NextLexeme(s)
      && '$' !in s[..n]
  {
    if s[0] == '-' || Digit(s[0]) {
      NumberIsLocal(s, rest);
    } else if IsSpace(s[0]) || s[0] in "{}[],:" {
      var s' := s[..1] + rest;
      assert s'[0] == s[0];
    } else {
      WordIsLocal(s, rest);
    }
  }

  lemma NumberIsLocal(s: string, rest: string)
    requires s != [] && (s[0] == '-' || Digit(s[0])) && NextLexeme(s).Some?
    requires
      var n := NextLexeme(s).value.0;
      (s[n..] == [] <==> rest == []) && (rest != [] ==> rest[0] == s[n..][0])
    ensures
      var n := NextLexeme(s).value.0;
      NextLexeme(s[..n] + rest) == NextLexeme(s) && '$' !in s[..n]
  {
    var n := NumberRun(s);
    NumberLocal(s, n, rest);
    var s' := s[..n] + rest;
    assert s'[0] == s[0] && s'[..n] == s[..n];
  }

  lemma WordIsLocal(s: string, rest: string)
    requires "true" <= s || "false" <= s || "null" <= s
    ensures
      var n := NextLexeme(s).value.0;
      NextLexeme(s).Some? && NextLexeme(s[..n] + rest) == NextLexeme(s) && '$' !in s[..n]
  {
  }

  /** Substituting and lexing commute on `s`, whose first byte stays. */
  ghost predicate Lexed(s: string, values: map<string, string>)
    requires Lex(s).Some?
  {
    var s' := SubstituteReferences(s, values);
    && (s' == [] <==> s == []) && (s != [] ==> s'[0] == s[0])
    && Lex(s') == Some(SubstituteLexemes(Lex(s).value, values))
  }

  lemma LexUnfolds(s: string, n: nat, first: seq<Lexeme>, rest: string)
    requires s != [] && NextLexeme(s) == Some((n, first)) && s[n..] == rest && Lex(rest).Some?
    ensures Lex(s) == Some(first + Lex(rest).value)
  {
  }

  lemma SubstituteConcat(a: seq<Lexeme>, b: seq<Lexeme>, values: map<string, string>)
    ensures SubstituteLexemes(a + b, values) == SubstituteLexemes(a, values) + SubstituteLexemes(b, values)
  {
  }

  lemma OthersUntouched(s: string, values: map<string, string>)
    requires s != [] && s[0] != '"' && NextLexeme(s).Some?
    ensures SubstituteLexemes(NextLexeme(s).value.1, values) == NextLexeme(s).value.1
  {
  }

  lemma OtherIsLexed(s: string, n: nat, values: map<string, string>)
    requires Lex(s).Some? && s != [] && s[0] != '"' && NextLexeme(s).value.0 == n
    requires Lexed(s[n..], values)
    ensures Lexed(s, values)
  {
    var rest, first := s[n..], NextLexeme(s).value.1;
    var rest' := SubstituteReferences(rest, values);
    OtherLexemeIsLocal(s, rest');
    NoDollarNoToken(s[..n], rest, values);
    SplitAt(s, n);
    LexUnfolds(s, n, first, rest);
    AfterFirst(s, n, rest');
    LexUnfolds(s[..n] + rest', n, first, rest');
    OthersUntouched(s, values);
    SubstituteConcat(first, Lex(rest).value, values);
  }

  lemma AfterFirst(s: string, n: nat, rest: string)
    requires 0 < n <= |s|
    ensures (s[..n] + rest)[n..] == rest && (s[..n] + rest)[0] == s[0]
  {
  }

  lemma LexString(s: string, body: string, rest: string)
    requires Quoted(s, body, rest) && ValidBody(body) && Lex(rest).Some?
    ensures Lex(s) == Some([Str(body)] + Lex(rest).value)
  {
    StringLexeme(s, body, rest);
    QuotedParts(s, body, rest);
    LexUnfolds(s, |body| + 2, [Str(body)], rest);
  }

  lemma StringIsLexed(s: string, body: string, rest: string, values: map<string, string>)
    requires Quoted(s, body, rest) && ValidBody(body) && Lex(rest).Some? && Lex(s).Some?
    requires Lexed(rest, values)
    ensures Lexed(s, values)
  {
    var body', rest' := SubstituteReferences(body, values), SubstituteReferences(rest, values);
    var s' := "\"" + (body' + ("\"" + rest'));
    NoDollarNoToken("\"", body + ("\"" + rest), values);
    SubstituteThroughQuote(body, rest, values);
    SubstitutedBodyIsValid(body, values);
    LexString(s, body, rest);
    LexString(s', body', rest');
    assert SubstituteLexemes([Str(body)], values) == [Str(body')];
    SubstituteConcat([Str(body)], Lex(rest).value, values);
  }

  /** A lexable text that starts with a quote starts with a whole string lexeme. */
  lemma QuotedPrefix(s: string) returns (body: string, rest: string)
    requires Lex(s).Some? && s != [] && s[0] == '"'
    ensures Quoted(s, body, rest) && ValidBody(body) && Lex(rest).Some? && |rest| < |s|
    ensures Lex(s).value == [Str(body)] + Lex(rest).value
  {
    var k := FrontString(s);
    body, rest := s[1..k + 1], s[k + 2..];
    LexUnfolds(s, k + 2, [Str(body)], rest);
  }

  lemma FrontString(s: string) returns (k: nat)
    requires Lex(s).Some? && s != [] && s[0] == '"'
    ensures k + 2 <= |s| && Quoted(s, s[1..k + 1], s[k + 2..]) && ValidBody(s[1..k + 1])
    ensures NextLexeme(s) == Some((k + 2, [Str(s[1..k + 1])])) && Lex(s[k + 2..]).Some?
  {
    k := ClosingQuote(s);
    BodyLengthFindsBody(s[1..]);
    SliceOfTail(s, 1, k + 1);
    SplitAtQuotes(s, k);
  }

  lemma ClosingQuote(s: string) returns (k: nat)
    requires Lex(s).Some? && s != [] && s[0] == '"'
    ensures k + 2 <= |s| && s[k + 1] == '"' && BodyLength(s[1..]) == Some(k)
    ensures NextLexeme(s) == Some((k + 2, [Str(s[1..k + 1])])) && Lex(s[k + 2..]).Some?
  {
    k := BodyLength(s[1..]).value;
  }

  lemma SplitAtQuotes(s: string, k: nat)
    requires k + 2 <= |s| && s[0] == '"' == s[k + 1]
    ensures Quoted(s, s[1..k + 1], s[k + 2..])
  {
  }

  /** Substitution changes the bodies of string lexemes and nothing else. */
  lemma {:induction false} SubstitutionKeepsLexemes(s: string, values: map<string, string>)
    requires Lex(s).Some?
    ensures Lexed(s, values)
    decreases |s|
  {
    if s == [] {
      assert SubstituteLexemes([], values) == [];
    } else if s[0] == '"' {
      var body, rest := QuotedPrefix(s);
      SubstitutionKeepsLexemes(rest, values);
      StringIsLexed(s, body, rest, values);
    } else {
      var n := NextLexeme(s).value.0;
      SubstitutionKeepsLexemes(s[n..], values);
      OtherIsLexed(s, n, values);
    }
  }

  lemma SubstitutedShapes(ls: seq<Lexeme>, values: map<string, string>)
    ensures SameShapes(ls, SubstituteLexemes(ls, values))
  {
  }

  /** If the Spec is JSON, so is the substituted Spec, lexeme for lexeme: the check
      after the splice can never fail. */
  lemma SubstitutionPreservesJson(spec: string, values: map<string, string>)
    requires ValidJson(spec)
    ensures ValidJson(SubstituteReferences(spec, values))
    ensures Lex(SubstituteReferences(spec, values)) == Some(SubstituteLexemes(Lex(spec).value, values))
  {
    SubstitutionKeepsLexemes(spec, values);
    var ls := Lex(spec).value;
    SubstitutedShapes(ls, values);
    ValuesAreParallel(ls, SubstituteLexemes(ls, values));
  }
}
