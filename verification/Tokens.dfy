/** Reference tokens `$(ref:name)` in a Spec: finding and replacing them
    (core/api/resource.go:40-82). */
module Tokens {
  import opened JsonStrings

  const PREFIX := "$(ref:"

  predicate NameByte(c: char) {
    'A' <= c <= 'Z' || 'a' <= c <= 'z' || '0' <= c <= '9' || c == '_' || c == '.' || c == '-'
  }

  /** How many name bytes `s` starts with. */
  function NameLength(s: string): (n: nat)
    ensures n <= |s|
    ensures forall i | 0 <= i < n :: NameByte(s[i])
    ensures n < |s| ==> !NameByte(s[n])
  {
    if s == [] || !NameByte(s[0]) then 0 else 1 + NameLength(s[1..])
  }

  predicate ValidReferenceName(name: string) {
    name != [] && NameLength(name) == |name|
  }

  /** Length of the token `s` starts with, 0 if it starts with none. The name cannot
      contain the closing parenthesis, so there is at most one way to match. */
  function TokenLength(s: string): (n: nat)
    ensures n <= |s|
    ensures n > 0 ==> n >= 8
  {
    if PREFIX <= s then
      var n := NameLength(s[6..]);
      if n > 0 && 6 + n < |s| && s[6 + n] == ')' then n + 7 else 0
    else 0
  }

  function TokenName(s: string): string
    requires TokenLength(s) > 0
  {
    s[6..TokenLength(s) - 1]
  }

  function TokenText(name: string): string {
    PREFIX + name + ")"
  }

  /** The names used by the tokens of `spec`, in order, duplicates kept. */
  function SpecReferenceTokens(spec: string): seq<string> {
    if spec == [] then []
    else if TokenLength(spec) > 0 then [TokenName(spec)] + SpecReferenceTokens(spec[TokenLength(spec)..])
    else SpecReferenceTokens(spec[1..])
  }

  /** What stands in for a token: the escaped value, or the token if it has none. */
  function Replacement(name: string, values: map<string, string>): string {
    if name in values then Escape(values[name]) else TokenText(name)
  }

  function SubstituteReferences(spec: string, values: map<string, string>): string {
    if spec == [] then []
    else if TokenLength(spec) > 0 then
      Replacement(TokenName(spec), values) + SubstituteReferences(spec[TokenLength(spec)..], values)
    else [spec[0]] + SubstituteReferences(spec[1..], values)
  }

  // Tokens are matched without ambiguity.

  lemma TokenShape(s: string)
    requires TokenLength(s) > 0
    ensures s[..TokenLength(s)] == TokenText(TokenName(s)) && ValidReferenceName(TokenName(s))
    ensures forall i | 0 < i < TokenLength(s) :: s[i] != '$'
    ensures forall i | 0 <= i < TokenLength(s) :: s[i] != '"' && s[i] != '\\' && 0x20 <= s[i] as int < 0x80
  {
  }

  lemma {:induction false} NameOfNameBytes(name: string)
    requires forall i | 0 <= i < |name| :: NameByte(name[i])
    ensures NameLength(name) == |name|
  {
  }

  /** What follows the name bytes does not change how many there are. */
  lemma {:induction false} NameLengthIsLocal(a: string, b: string)
    requires b != [] && !NameByte(b[0])
    ensures NameLength(a + b) == NameLength(a)
  {
    if a == [] {
      assert a + b == b;
    } else {
      assert (a + b)[1..] == a[1..] + b;
      NameLengthIsLocal(a[1..], b);
    }
  }

  /** The text of a token with a valid name is matched as that token. */
  lemma TokenTextMatches(name: string, rest: string)
    requires ValidReferenceName(name)
    ensures TokenLength(TokenText(name) + rest) == |TokenText(name)|
    ensures TokenName(TokenText(name) + rest) == name
  {
    var s := TokenText(name) + rest;
    assert s[..6] == PREFIX;
    assert s[6..] == name + (")" + rest);
    NameLengthIsLocal(name, ")" + rest);
    assert s[6..6 + |name|] == name;
  }

  /** Matches cannot overlap. */
  lemma NoMatchInsideAMatch(s: string, i: nat)
    requires 0 < i < TokenLength(s)
    ensures TokenLength(s[i..]) == 0
  {
    TokenShape(s);
    assert s[i..][0] == s[i];
  }

  /** The name pattern of the repository: `[A-Za-z0-9_.-]+`. */
  predicate ReferenceName(name: string) {
    name != [] && forall i | 0 <= i < |name| ::
      'A' <= name[i] <= 'Z' || 'a' <= name[i] <= 'z' || '0' <= name[i] <= '9' || name[i] in "_.-"
  }

  lemma ValidNameIff(name: string)
    ensures ValidReferenceName(name) <==> ReferenceName(name)
  {
    if ReferenceName(name) {
      NameOfNameBytes(name);
    }
  }

  /** A text starts with a token exactly when it starts with `$(ref:`, a name and `)`. */
  lemma TokenIff(s: string, name: string)
    ensures TokenLength(s) > 0 && TokenName(s) == name <==> ReferenceName(name) && "$(ref:" + name + ")" <= s
    ensures ReferenceName(name) && "$(ref:" + name + ")" <= s ==> TokenLength(s) == |name| + 7
  {
    ValidNameIff(name);
    if TokenLength(s) > 0 && TokenName(s) == name {
      TokenShape(s);
    }
    if ReferenceName(name) && "$(ref:" + name + ")" <= s {
      var rest := s[|name| + 7..];
      assert s == TokenText(name) + rest;
      TokenTextMatches(name, rest);
    }
  }

  predicate Matches(spec: string, at: nat) {
    at < |spec| && TokenLength(spec[at..]) > 0
  }

  /** Where the scan resumes: after the token, or one byte on. */
  function Next(spec: string, from: nat): (next: nat)
    requires from < |spec|
    ensures from < next <= |spec|
  {
    if TokenLength(spec[from..]) > 0 then from + TokenLength(spec[from..]) else from + 1
  }

  /** Where a left-to-right scan finds tokens, from position `from` on. */
  function Scan(spec: string, from: nat): seq<nat>
    requires from <= |spec|
    decreases |spec| - from
  {
    if from == |spec| then []
    else if Matches(spec, from) then [from] + Scan(spec, Next(spec, from))
    else Scan(spec, Next(spec, from))
  }

  lemma NothingSkipped(spec: string, from: nat, at: nat)
    requires from < |spec| && from < at < Next(spec, from)
    ensures !Matches(spec, at)
  {
    NoMatchInsideAMatch(spec[from..], at - from);
    assert spec[from..][at - from..] == spec[at..];
  }

  lemma ScanUnfolds(spec: string, from: nat)
    requires from < |spec|
    ensures Scan(spec, from) == (if Matches(spec, from) then [from] else []) + Scan(spec, Next(spec, from))
  {
  }

  /** The scan finds every position where a token matches ... */
  lemma {:induction false} ScanFindsEveryMatch(spec: string, from: nat, at: nat)
    requires from <= at < |spec| && Matches(spec, at)
    ensures at in Scan(spec, from)
    decreases |spec| - from
  {
    ScanUnfolds(spec, from);
    if from < at {
      if at < Next(spec, from) {
        NothingSkipped(spec, from, at);
      }
      ScanFindsEveryMatch(spec, Next(spec, from), at);
    }
  }

  /** `positions` are positions of tokens, from `from` on, in increasing order. */
  ghost predicate InOrder(spec: string, from: nat, positions: seq<nat>) {
    && (forall i, j | 0 <= i < j < |positions| :: positions[i] < positions[j])
    && (forall i | 0 <= i < |positions| :: from <= positions[i] && Matches(spec, positions[i]))
  }

  lemma InOrderCons(spec: string, from: nat, next: nat, rest: seq<nat>)
    requires from < next && InOrder(spec, next, rest)
    ensures InOrder(spec, from, rest)
    ensures Matches(spec, from) ==> InOrder(spec, from, [from] + rest)
  {
  }

  /** ... each once, in order, and nothing else. */
  lemma {:induction false} ScanIsIncreasing(spec: string, from: nat)
    requires from <= |spec|
    ensures InOrder(spec, from, Scan(spec, from))
    decreases |spec| - from
  {
    if from < |spec| {
      ScanIsIncreasing(spec, Next(spec, from));
      InOrderCons(spec, from, Next(spec, from), Scan(spec, Next(spec, from)));
      ScanUnfolds(spec, from);
    }
  }

  lemma ListUnfolds(spec: string, from: nat)
    requires from < |spec|
    ensures SpecReferenceTokens(spec[from..]) ==
              (if Matches(spec, from) then [TokenName(spec[from..])] else []) + SpecReferenceTokens(spec[Next(spec, from)..])
  {
    var s := spec[from..];
    var cut := if TokenLength(s) > 0 then TokenLength(s) else 1;
    assert s[cut..] == spec[Next(spec, from)..];
  }

  ghost predicate NamesAt(spec: string, positions: seq<nat>, names: seq<string>) {
    && |names| == |positions|
    && forall i | 0 <= i < |positions| :: Matches(spec, positions[i]) && names[i] == TokenName(spec[positions[i]..])
  }

  lemma NamesAtCons(spec: string, at: nat, positions: seq<nat>, names: seq<string>)
    requires Matches(spec, at) && NamesAt(spec, positions, names)
    ensures NamesAt(spec, [at] + positions, [TokenName(spec[at..])] + names)
  {
    var p, n := [at] + positions, [TokenName(spec[at..])] + names;
    forall i | 0 <= i < |p| ensures Matches(spec, p[i]) && n[i] == TokenName(spec[p[i]..]) {
      assert i > 0 ==> p[i] == positions[i - 1] && n[i] == names[i - 1];
    }
  }

  /** SpecReferenceTokens lists the names at those positions. */
  lemma {:induction false} TokensAreScanned(spec: string, from: nat)
    requires from <= |spec|
    ensures NamesAt(spec, Scan(spec, from), SpecReferenceTokens(spec[from..]))
    decreases |spec| - from
  {
    if from < |spec| {
      var next := Next(spec, from);
      TokensAreScanned(spec, next);
      if Matches(spec, from) {
        NamesAtCons(spec, from, Scan(spec, next), SpecReferenceTokens(spec[next..]));
      }
      ScanUnfolds(spec, from);
      ListUnfolds(spec, from);
    }
  }

  /** Every position where a token matches is listed. */
  lemma EveryTokenIsListed(spec: string, at: nat)
    requires Matches(spec, at)
    ensures TokenName(spec[at..]) in SpecReferenceTokens(spec)
  {
    ScanFindsEveryMatch(spec, 0, at);
    TokensAreScanned(spec, 0);
    assert spec[0..] == spec;
    var i :| 0 <= i < |Scan(spec, 0)| && Scan(spec, 0)[i] == at;
    assert SpecReferenceTokens(spec)[i] == TokenName(spec[at..]);
  }

  // A Spec as literal text interleaved with tokens.

  datatype Piece = Literal(text: string) | Hole(name: string)

  function Prepend(c: char, pieces: seq<Piece>): seq<Piece> {
    if pieces != [] && pieces[0].Literal? then [Literal([c] + pieces[0].text)] + pieces[1..]
    else [Literal([c])] + pieces
  }

  /** The tokens of `spec` and the maximal stretches of text between them. */
  function Pieces(spec: string): seq<Piece> {
    if spec == [] then []
    else if TokenLength(spec) > 0 then [Hole(TokenName(spec))] + Pieces(spec[TokenLength(spec)..])
    else Prepend(spec[0], Pieces(spec[1..]))
  }

  function Fill(piece: Piece, values: map<string, string>): string {
    match piece
    case Literal(text) => text
    case Hole(name) => Replacement(name, values)
  }

  function FillAll(pieces: seq<Piece>, values: map<string, string>): string {
    if pieces == [] then [] else Fill(pieces[0], values) + FillAll(pieces[1..], values)
  }

  function HoleNames(pieces: seq<Piece>): seq<string> {
    if pieces == [] then []
    else (if pieces[0].Hole? then [pieces[0].name] else []) + HoleNames(pieces[1..])
  }

  lemma PrependFills(c: char, pieces: seq<Piece>, values: map<string, string>)
    ensures FillAll(Prepend(c, pieces), values) == [c] + FillAll(pieces, values)
    ensures HoleNames(Prepend(c, pieces)) == HoleNames(pieces)
  {
  }

  lemma SplitAt(spec: string, n: nat)
    requires n <= |spec|
    ensures spec == spec[..n] + spec[n..]
  {
  }

  lemma PiecesOfToken(spec: string)
    requires TokenLength(spec) > 0
    ensures Pieces(spec)[0] == Hole(TokenName(spec)) && Pieces(spec)[1..] == Pieces(spec[TokenLength(spec)..])
  {
  }

  /** Substitution replaces each token of the Spec once and keeps every other byte. */
  lemma {:induction false} SubstitutionFillsHoles(spec: string, values: map<string, string>)
    ensures SubstituteReferences(spec, values) == FillAll(Pieces(spec), values)
    decreases |spec|
  {
    if spec == [] {
    } else if TokenLength(spec) > 0 {
      SubstitutionFillsHoles(spec[TokenLength(spec)..], values);
      PiecesOfToken(spec);
    } else {
      SubstitutionFillsHoles(spec[1..], values);
      PrependFills(spec[0], Pieces(spec[1..]), values);
    }
  }

  /** The pieces are those of the Spec itself, their holes its tokens in order. */
  lemma {:induction false} PiecesCoverSpec(spec: string)
    ensures HoleNames(Pieces(spec)) == SpecReferenceTokens(spec)
    ensures FillAll(Pieces(spec), map[]) == spec
    decreases |spec|
  {
    if spec == [] {
    } else if TokenLength(spec) > 0 {
      var n := TokenLength(spec);
      PiecesCoverSpec(spec[n..]);
      PiecesOfToken(spec);
      TokenShape(spec);
      SplitAt(spec, n);
    } else {
      PiecesCoverSpec(spec[1..]);
      PrependFills(spec[0], Pieces(spec[1..]), map[]);
    }
  }

  /** A Spec that uses none of the named values is handed over byte for byte. */
  lemma {:induction false} UnusedValuesChangeNothing(spec: string, values: map<string, string>)
    requires forall name | name in SpecReferenceTokens(spec) :: name !in values
    ensures SubstituteReferences(spec, values) == spec
    decreases |spec|
  {
    if spec == [] {
    } else if TokenLength(spec) > 0 {
      var n := TokenLength(spec);
      assert TokenName(spec) == SpecReferenceTokens(spec)[0];
      assert SpecReferenceTokens(spec)[1..] == SpecReferenceTokens(spec[n..]);
      UnusedValuesChangeNothing(spec[n..], values);
      TokenShape(spec);
      SplitAt(spec, n);
    } else {
      UnusedValuesChangeNothing(spec[1..], values);
    }
  }

  // Changing one value.

  /** `after` is `before` with a different value for `name`. */
  ghost predicate ChangesOnly(before: map<string, string>, after: map<string, string>, name: string) {
    && name in before && name in after && before[name] != after[name]
    && ValidUtf8(before[name]) && ValidUtf8(after[name])
    && (forall n | n != name :: n in before <==> n in after)
    && (forall n | n != name && n in before :: before[n] == after[n])
  }

  lemma EscapeIsInjective(v: string, w: string)
    requires ValidUtf8(v) && ValidUtf8(w) && Escape(v) == Escape(w)
    ensures v == w
  {
    EscapeRoundTripsIff(v);
    EscapeRoundTripsIff(w);
  }

  /** How often `name` is to be filled in. */
  function Holes(pieces: seq<Piece>, name: string): nat {
    if pieces == [] then 0
    else (if pieces[0] == Hole(name) then 1 else 0) + Holes(pieces[1..], name)
  }

  lemma {:induction false} HolesIffNamed(pieces: seq<Piece>, name: string)
    ensures Holes(pieces, name) > 0 <==> name in HoleNames(pieces)
  {
    if pieces != [] {
      HolesIffNamed(pieces[1..], name);
    }
  }

  ghost predicate SameElsewhere(before: map<string, string>, after: map<string, string>, name: string) {
    && name in before && name in after
    && forall n | n != name :: Replacement(n, before) == Replacement(n, after)
  }

  /** u copies of `growth`, added up. */
  function Times(u: nat, growth: int): int {
    if u == 0 then 0 else growth + Times(u - 1, growth)
  }

  lemma {:induction false} TimesKeepsSign(u: nat, growth: int)
    ensures u > 0 && growth > 0 ==> Times(u, growth) > 0
    ensures u > 0 && growth < 0 ==> Times(u, growth) < 0
  {
    if u > 0 {
      TimesKeepsSign(u - 1, growth);
    }
  }

  lemma OtherFillsAgree(piece: Piece, before: map<string, string>, after: map<string, string>, name: string)
    requires SameElsewhere(before, after, name) && piece != Hole(name)
    ensures Fill(piece, before) == Fill(piece, after)
  {
  }

  /** The text grows by one difference in length for each hole. */
  lemma {:induction false} LengthFollowsHoles(pieces: seq<Piece>, before: map<string, string>, after: map<string, string>, name: string, growth: int)
    requires SameElsewhere(before, after, name)
    requires growth == |Replacement(name, after)| - |Replacement(name, before)|
    ensures |FillAll(pieces, after)| == |FillAll(pieces, before)| + Times(Holes(pieces, name), growth)
  {
    if pieces != [] {
      var rest, u := pieces[1..], Holes(pieces[1..], name);
      LengthFollowsHoles(rest, before, after, name, growth);
      if pieces[0] == Hole(name) {
        assert Times(u + 1, growth) == growth + Times(u, growth);
      } else {
        OtherFillsAgree(pieces[0], before, after, name);
        assert Holes(pieces, name) == u;
      }
    }
  }

  lemma DifferentHeads(a: string, b: string, restA: string, restB: string)
    requires |a| == |b| && (a != b || restA != restB)
    ensures a + restA != b + restB
  {
    assert (a + restA)[..|a|] == a && (a + restA)[|a|..] == restA;
    assert (b + restB)[..|b|] == b && (b + restB)[|b|..] == restB;
  }

  lemma {:induction false} SameLengthChangeShows(pieces: seq<Piece>, before: map<string, string>, after: map<string, string>, name: string)
    requires SameElsewhere(before, after, name) && Holes(pieces, name) > 0
    requires |Replacement(name, after)| == |Replacement(name, before)| && Replacement(name, after) != Replacement(name, before)
    ensures FillAll(pieces, before) != FillAll(pieces, after)
  {
    if pieces[0] != Hole(name) {
      OtherFillsAgree(pieces[0], before, after, name);
      SameLengthChangeShows(pieces[1..], before, after, name);
    }
    DifferentHeads(Fill(pieces[0], before), Fill(pieces[0], after), FillAll(pieces[1..], before), FillAll(pieces[1..], after));
  }

  /** If one resolved value changes and some token uses it, the substituted Spec
      changes, whatever the number of tokens. */
  lemma ChangedValueChangesBytes(spec: string, before: map<string, string>, after: map<string, string>, name: string)
    requires ChangesOnly(before, after, name) && name in SpecReferenceTokens(spec)
    ensures SubstituteReferences(spec, before) != SubstituteReferences(spec, after)
  {
    var pieces := Pieces(spec);
    PiecesCoverSpec(spec);
    HolesIffNamed(pieces, name);
    SubstitutionFillsHoles(spec, before);
    SubstitutionFillsHoles(spec, after);
    var growth := |Replacement(name, after)| - |Replacement(name, before)|;
    LengthFollowsHoles(pieces, before, after, name, growth);
    if growth == 0 {
      if Escape(before[name]) == Escape(after[name]) {
        EscapeIsInjective(before[name], after[name]);
      }
      SameLengthChangeShows(pieces, before, after, name);
    } else {
      TimesKeepsSign(Holes(pieces, name), growth);
    }
  }
}
