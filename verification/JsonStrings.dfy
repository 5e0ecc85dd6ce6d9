/** JSON string literals as Go's encoding/json writes and reads them (section 7 of
    RFC 8259): escaping, which bodies are legal, and decoding. A body is what stands
    between the quotes. */
module JsonStrings {

  // U+FFFD, U+2028 and U+2029 in UTF-8.
  const REPLACEMENT := "\U{EF}\U{BF}\U{BD}"
  const LINE_SEPARATOR := "\U{E2}\U{80}\U{A8}"
  const PARAGRAPH_SEPARATOR := "\U{E2}\U{80}\U{A9}"

  predicate Between(c: char, lo: int, hi: int) {
    lo <= c as int <= hi
  }

  predicate Continuation(c: char) {
    Between(c, 0x80, 0xBF)
  }

  /** Length of the UTF-8 encoded code point `s` starts with, 0 if there is none. */
  function Utf8Length(s: string): (n: nat)
    ensures n <= |s| && n <= 4
  {
    if |s| >= 1 && Between(s[0], 0, 0x7F) then 1
    else if |s| >= 2 && Between(s[0], 0xC2, 0xDF) && Continuation(s[1]) then 2
    else if |s| >= 3 && Continuation(s[2])
            && (|| (Between(s[0], 0xE0, 0xE0) && Between(s[1], 0xA0, 0xBF))
                || (Between(s[0], 0xE1, 0xEF) && s[0] as int != 0xED && Continuation(s[1]))
                || (Between(s[0], 0xED, 0xED) && Between(s[1], 0x80, 0x9F))) then 3
    else if |s| >= 4 && Continuation(s[2]) && Continuation(s[3])
            && (|| (Between(s[0], 0xF0, 0xF0) && Between(s[1], 0x90, 0xBF))
                || (Between(s[0], 0xF1, 0xF3) && Continuation(s[1]))
                || (Between(s[0], 0xF4, 0xF4) && Between(s[1], 0x80, 0x8F))) then 4
    else 0
  }

  /** `s` with every byte that is not part of a code point replaced by U+FFFD. */
  function Sanitize(s: string): string {
    if s == [] then []
    else
      var n := Utf8Length(s);
      if n == 0 then REPLACEMENT + Sanitize(s[1..]) else s[..n] + Sanitize(s[n..])
  }

  predicate ValidUtf8(s: string) {
    s == [] || (Utf8Length(s) > 0 && ValidUtf8(s[Utf8Length(s)..]))
  }

  function HexDigit(n: nat): char
    requires n < 16
  {
    "0123456789abcdef"[n]
  }

  predicate IsHex(c: char) {
    '0' <= c <= '9' || 'a' <= c <= 'f' || 'A' <= c <= 'F'
  }

  function HexValue(c: char): (n: nat)
    requires IsHex(c)
    ensures n < 16
  {
    if c <= '9' then c as int - '0' as int
    else if c <= 'F' then c as int - 'A' as int + 10
    else c as int - 'a' as int + 10
  }

  /** What json.Marshal writes for one ASCII byte. */
  function EscapeAscii(c: char): string {
    if c == '"' || c == '\\' then ['\\', c]
    else if c as int == 8 then "\\b"
    else if c as int == 12 then "\\f"
    else if c as int == 10 then "\\n"
    else if c as int == 13 then "\\r"
    else if c as int == 9 then "\\t"
    else if (c as int < 0x20 || c == '<' || c == '>' || c == '&') && c as int < 0x80 then
      "\\u00" + [HexDigit(c as int / 16), HexDigit(c as int % 16)]
    else [c]
  }

  /** What json.Marshal writes for the first `n` bytes of a string, one code point,
      or for one stray byte when `n` is 0. */
  function EscapeGroup(s: string, n: nat): string
    requires s != [] && n <= |s|
  {
    if n == 0 then "\\ufffd"
    else if n == 1 then EscapeAscii(s[0])
    else if s[..n] == LINE_SEPARATOR then "\\u2028"
    else if s[..n] == PARAGRAPH_SEPARATOR then "\\u2029"
    else s[..n]
  }

  function GroupLength(s: string): (n: nat)
    requires s != []
    ensures 0 < n <= |s|
  {
    if Utf8Length(s) == 0 then 1 else Utf8Length(s)
  }

  /** json.Marshal of a string, without the quotes. */
  function Escape(s: string): string {
    if s == [] then []
    else EscapeGroup(s, Utf8Length(s)) + Escape(s[GroupLength(s)..])
  }

  predicate SimpleEscape(c: char) {
    c in "\"\\/bfnrt"
  }

  predicate UnicodeEscape(s: string) {
    |s| >= 6 && s[0] == '\\' && s[1] == 'u' && IsHex(s[2]) && IsHex(s[3]) && IsHex(s[4]) && IsHex(s[5])
  }

  /** Length of the first item of a body: a byte, a two-byte escape or a \u escape;
      0 if the body cannot start like this. */
  function ItemLength(s: string): (n: nat)
    requires s != []
    ensures n <= |s|
  {
    if s[0] == '\\' then
      if |s| >= 2 && SimpleEscape(s[1]) then 2 else if UnicodeEscape(s) then 6 else 0
    else if s[0] == '"' || (s[0] as int) < 0x20 then 0
    else 1
  }

  predicate ValidBody(s: string) {
    s == [] || (ItemLength(s) > 0 && ValidBody(s[ItemLength(s)..]))
  }

  function CodeUnit(s: string): (n: nat)
    requires UnicodeEscape(s)
    ensures n < 0x1_0000
  {
    ((HexValue(s[2]) * 16 + HexValue(s[3])) * 16 + HexValue(s[4])) * 16 + HexValue(s[5])
  }

  predicate HighSurrogate(u: nat) {
    0xD800 <= u < 0xDC00
  }

  predicate LowSurrogate(u: nat) {
    0xDC00 <= u < 0xE000
  }

  function Byte(n: nat): char
    requires n < 0x100
  {
    n as char
  }

  /** UTF-8 of a code point. */
  function Encode(p: nat): string
    requires p < 0x11_0000
  {
    if p < 0x80 then [Byte(p)]
    else if p < 0x800 then [Byte(0xC0 + p / 0x40), Byte(0x80 + p % 0x40)]
    else if p < 0x1_0000 then [Byte(0xE0 + p / 0x1000), Byte(0x80 + p / 0x40 % 0x40), Byte(0x80 + p % 0x40)]
    else [Byte(0xF0 + p / 0x4_0000), Byte(0x80 + p / 0x1000 % 0x40), Byte(0x80 + p / 0x40 % 0x40), Byte(0x80 + p % 0x40)]
  }

  function Unescape(c: char): char {
    if c == 'b' then Byte(8) else if c == 'f' then Byte(12) else if c == 'n' then Byte(10)
    else if c == 'r' then Byte(13) else if c == 't' then Byte(9) else c
  }

  /** What a \u escape decodes to, given its code unit and that of the low half after it. */
  function UnicodeStep(u: nat, low: int): (nat, string)
    requires u < 0x1_0000 && (low >= 0 ==> 0xDC00 <= low < 0xE000)
  {
    if LowSurrogate(u) || (HighSurrogate(u) && low < 0) then (6, REPLACEMENT)
    else if HighSurrogate(u) then (12, Encode(0x1_0000 + (u - 0xD800) * 0x400 + (low - 0xDC00)))
    else (6, Encode(u))
  }

  function LowHalf(s: string): (low: int)
    requires UnicodeEscape(s)
    ensures low >= 0 ==> 0xDC00 <= low < 0xE000
  {
    if UnicodeEscape(s[6..]) && LowSurrogate(CodeUnit(s[6..])) then CodeUnit(s[6..]) else -1
  }

  /** One step of Go's unquote: how many bytes it consumes and what it emits. */
  function DecodeStep(s: string): (r: (nat, string))
    requires s != []
    ensures 0 < r.0 <= |s|
  {
    if s[0] == '\\' then
      if !UnicodeEscape(s) then
        if |s| >= 2 then (2, [Unescape(s[1])]) else (1, [])
      else UnicodeStep(CodeUnit(s), LowHalf(s))
    else if Utf8Length(s) == 0 then (1, REPLACEMENT)
    else (Utf8Length(s), s[..Utf8Length(s)])
  }

  /** The string a body stands for. */
  function Decode(s: string): string {
    if s == [] then []
    else
      var (n, out) := DecodeStep(s);
      out + Decode(s[n..])
  }

  lemma Regroup(a: string, b: string, c: string)
    ensures (a + b) + c == a + (b + c)
  {
  }

  // Cutting a body in two.

  /** A continuation that cannot complete anything the text before it left open: a
      cut-off UTF-8 sequence or an unpaired high surrogate. */
  predicate SafeStart(s: string) {
    s == [] || (!Continuation(s[0]) && !(UnicodeEscape(s) && LowSurrogate(CodeUnit(s))))
  }

  lemma Utf8LengthIsLocal(a: string, b: string)
    requires a != [] && SafeStart(b)
    ensures Utf8Length(a + b) == Utf8Length(a)
  {
    assert (a + b)[0] == a[0];
    assert |a| >= 2 ==> (a + b)[1] == a[1];
    assert |a| >= 3 ==> (a + b)[2] == a[2];
    assert |a| >= 4 ==> (a + b)[3] == a[3];
    assert b != [] ==> (a + b)[|a|] == b[0];
  }

  lemma ItemIsLocal(a: string, b: string)
    requires a != [] && ItemLength(a) > 0
    ensures ItemLength(a + b) == ItemLength(a)
    ensures (a + b)[ItemLength(a)..] == a[ItemLength(a)..] + b
  {
  }

  lemma {:induction false} ValidBodyConcat(a: string, b: string)
    requires ValidBody(a) && ValidBody(b)
    ensures ValidBody(a + b)
  {
    if a == [] {
      assert a + b == b;
    } else {
      ItemIsLocal(a, b);
      ValidBodyConcat(a[ItemLength(a)..], b);
    }
  }

  /** Dropping plain bytes from the front keeps a body valid. */
  lemma {:induction false} ValidBodyDrop(s: string, n: nat)
    requires ValidBody(s) && n <= |s| && '\\' !in s[..n]
    ensures ValidBody(s[n..])
  {
    if n == 0 {
      assert s[0..] == s;
    } else {
      assert s[0] in s[..n];
      assert s[1..][..n - 1] == s[..n][1..];
      ValidBodyDrop(s[1..], n - 1);
      assert s[1..][n - 1..] == s[n..];
    }
  }

  lemma UnicodeEscapeIsLocal(a: string, b: string)
    requires UnicodeEscape(a)
    ensures UnicodeEscape(a + b) && CodeUnit(a + b) == CodeUnit(a)
  {
  }

  /** On a valid body, a decoding step does not look past the end ... */
  lemma SimpleStepIsLocal(a: string, b: string)
    requires a != [] && a[0] == '\\' && ValidBody(a) && !UnicodeEscape(a)
    ensures DecodeStep(a + b) == DecodeStep(a) == (2, [Unescape(a[1])])
    ensures ValidBody(a[2..])
  {
    assert ItemLength(a) == 2 && a[1] != 'u';
    assert (a + b)[0] == a[0] && (a + b)[1] == a[1];
  }

  lemma UnicodeTail(a: string)
    requires UnicodeEscape(a) && ValidBody(a)
    ensures ValidBody(a[6..])
  {
    assert ItemLength(a) == 6;
  }

  lemma LowHalfIsLocal(a: string, b: string)
    requires UnicodeEscape(a) && ValidBody(a) && SafeStart(b)
    ensures UnicodeEscape(a + b) && CodeUnit(a + b) == CodeUnit(a) && LowHalf(a + b) == LowHalf(a)
    ensures LowHalf(a) >= 0 ==> ValidBody(a[12..])
  {
    UnicodeEscapeIsLocal(a, b);
    SecondHalfIsLocal(a, b);
  }

  lemma StepByUnits(s: string)
    requires UnicodeEscape(s)
    ensures DecodeStep(s) == UnicodeStep(CodeUnit(s), LowHalf(s))
  {
  }

  lemma UnicodeStepIsLocal(a: string, b: string)
    requires UnicodeEscape(a) && ValidBody(a) && SafeStart(b)
    ensures DecodeStep(a + b) == DecodeStep(a)
    ensures ValidBody(a[DecodeStep(a).0..])
  {
    LowHalfIsLocal(a, b);
    UnicodeTail(a);
    StepByUnits(a);
    StepByUnits(a + b);
    StepLength(CodeUnit(a), LowHalf(a));
  }

  lemma StepLength(u: nat, low: int)
    requires u < 0x1_0000 && (low >= 0 ==> 0xDC00 <= low < 0xE000)
    ensures UnicodeStep(u, low).0 == 6 || (UnicodeStep(u, low).0 == 12 && low >= 0)
  {
  }

  lemma PlainStepIsLocal(a: string, b: string)
    requires a != [] && a[0] != '\\' && SafeStart(b)
    ensures DecodeStep(a + b) == DecodeStep(a)
  {
    Utf8LengthIsLocal(a, b);
    assert (a + b)[0] == a[0] && (a + b)[..Utf8Length(a)] == a[..Utf8Length(a)];
  }

  lemma PlainStepHasNoEscape(a: string)
    requires a != [] && a[0] != '\\'
    ensures '\\' !in a[..DecodeStep(a).0]
  {
    assert forall i | 1 <= i < Utf8Length(a) :: a[i] as int >= 0x80;
  }

  lemma DecodeStepIsLocal(a: string, b: string)
    requires a != [] && ValidBody(a) && SafeStart(b)
    ensures DecodeStep(a + b) == DecodeStep(a)
    ensures ValidBody(a[DecodeStep(a).0..])
  {
    if a[0] == '\\' {
      if UnicodeEscape(a) {
        UnicodeStepIsLocal(a, b);
      } else {
        SimpleStepIsLocal(a, b);
      }
    } else {
      PlainStepIsLocal(a, b);
      PlainStepHasNoEscape(a);
      ValidBodyDrop(a, DecodeStep(a).0);
    }
  }

  lemma SecondHalfIsLocal(a: string, b: string)
    requires UnicodeEscape(a) && ValidBody(a) && SafeStart(b)
    ensures
      (UnicodeEscape((a + b)[6..]) && LowSurrogate(CodeUnit((a + b)[6..])))
      <==> (UnicodeEscape(a[6..]) && LowSurrogate(CodeUnit(a[6..])))
    ensures UnicodeEscape(a[6..]) ==> CodeUnit((a + b)[6..]) == CodeUnit(a[6..]) && ValidBody(a[12..])
  {
  }

  lemma StepThenRest(a: string, b: string) returns (n: nat, out: string)
    requires a != [] && ValidBody(a) && SafeStart(b)
    ensures 0 < n <= |a| && ValidBody(a[n..])
    ensures Decode(a) == out + Decode(a[n..]) && Decode(a + b) == out + Decode(a[n..] + b)
  {
    DecodeStepIsLocal(a, b);
    n, out := DecodeStep(a).0, DecodeStep(a).1;
    DecodeUnfolds(a, n, out, a[n..]);
    TailOfConcat(a, b, n);
    DecodeUnfolds(a + b, n, out, a[n..] + b);
  }

  lemma DecodeUnfolds(s: string, n: nat, out: string, rest: string)
    requires s != [] && DecodeStep(s) == (n, out) && s[n..] == rest
    ensures Decode(s) == out + Decode(rest)
  {
  }

  lemma TailOfConcat(a: string, b: string, n: nat)
    requires n <= |a|
    ensures (a + b)[n..] == a[n..] + b
  {
  }

  /** ... so decoding distributes over a safe cut. */
  lemma {:induction false} DecodeConcat(a: string, b: string)
    requires ValidBody(a) && SafeStart(b)
    ensures Decode(a + b) == Decode(a) + Decode(b)
    decreases |a|
  {
    if a == [] {
      assert a + b == b;
    } else {
      var n, out := StepThenRest(a, b);
      DecodeConcat(a[n..], b);
      Regroup(out, Decode(a[n..]), Decode(b));
    }
  }

  // Escaping.

  /** Each group is escaped to legal items that decode to it and end cleanly. */
  lemma EscapeGroupDecodes(s: string, rest: string)
    requires s != []
    ensures Decodes(EscapeGroup(s, Utf8Length(s)), rest, if Utf8Length(s) == 0 then REPLACEMENT else s[..Utf8Length(s)])
  {
    var n := Utf8Length(s);
    var group := EscapeGroup(s, n);
    if n == 0 || (n > 1 && (s[..n] == LINE_SEPARATOR || s[..n] == PARAGRAPH_SEPARATOR)) {
      UnicodeEscapeIsLocal(group, rest);
      assert ValidBody(group[6..]);
    } else if n == 1 {
      EscapeAsciiDecodes(s[0], rest);
      assert s[..1] == [s[0]];
    } else {
      PlainGroupDecodes(s[..n], rest);
      Utf8LengthOfPrefix(s);
    }
  }

  lemma Utf8LengthOfPrefix(s: string)
    requires s != []
    ensures Utf8Length(s) > 0 ==> Utf8Length(s[..Utf8Length(s)]) == Utf8Length(s)
  {
  }

  /** `group` is a legal piece of a string body that decodes to `out`. */
  ghost predicate Decodes(group: string, rest: string, out: string) {
    group != [] && ValidBody(group) && SafeStart(group + rest) && DecodeStep(group + rest) == (|group|, out)
  }

  lemma UnicodeAsciiUnit(c: char)
    requires (c as int) < 0x80 && |EscapeAscii(c)| == 6
    ensures UnicodeEscape(EscapeAscii(c)) && CodeUnit(EscapeAscii(c)) == c as int
  {
    assert HexValue(HexDigit(c as int / 16)) == c as int / 16;
    assert HexValue(HexDigit(c as int % 16)) == c as int % 16;
  }

  lemma UnicodeAsciiDecodes(c: char, rest: string)
    requires (c as int) < 0x80 && |EscapeAscii(c)| == 6
    ensures Decodes(EscapeAscii(c), rest, [c])
  {
    var group := EscapeAscii(c);
    UnicodeAsciiUnit(c);
    UnicodeEscapeIsLocal(group, rest);
    assert ValidBody(group[6..]);
  }

  lemma ShortAsciiDecodes(c: char, rest: string)
    requires (c as int) < 0x80 && |EscapeAscii(c)| == 2
    ensures Decodes(EscapeAscii(c), rest, [c])
  {
  }

  lemma EscapeAsciiDecodes(c: char, rest: string)
    requires (c as int) < 0x80
    ensures Decodes(EscapeAscii(c), rest, [c])
  {
    var group := EscapeAscii(c);
    if |group| == 6 {
      UnicodeAsciiDecodes(c, rest);
    } else if |group| == 2 {
      ShortAsciiDecodes(c, rest);
    } else {
      assert ValidBody(group[1..]);
      assert (group + rest)[0] == c && (group + rest)[..1] == [c];
    }
  }

  lemma {:induction false} HighBytesAreValid(s: string)
    requires forall i | 0 <= i < |s| :: s[i] as int >= 0x80
    ensures ValidBody(s)
  {
    if s != [] {
      HighBytesAreValid(s[1..]);
    }
  }

  lemma GroupBytesAreHigh(group: string)
    requires |group| > 1 && Utf8Length(group) == |group|
    ensures forall i | 0 <= i < |group| :: group[i] as int >= 0x80
    ensures !Continuation(group[0])
  {
  }

  lemma GroupIsLocal(group: string, rest: string)
    requires |group| > 1 && Utf8Length(group) == |group|
    ensures Utf8Length(group + rest) == |group|
  {
    assert (group + rest)[0] == group[0] && (group + rest)[1] == group[1];
    assert |group| >= 3 ==> (group + rest)[2] == group[2];
    assert |group| >= 4 ==> (group + rest)[3] == group[3];
  }

  lemma PlainGroupDecodes(group: string, rest: string)
    requires |group| > 1 && Utf8Length(group) == |group|
    ensures ValidBody(group) && SafeStart(group + rest) && DecodeStep(group + rest) == (|group|, group)
  {
    GroupBytesAreHigh(group);
    HighBytesAreValid(group);
    GroupIsLocal(group, rest);
    assert (group + rest)[0] == group[0] && (group + rest)[..|group|] == group;
  }

  lemma DecodesAhead(group: string, rest: string, out: string)
    requires Decodes(group, rest, out)
    ensures SafeStart(group + rest) && Decode(group + rest) == out + Decode(rest)
  {
  }

  /** The first group of a value: its escape, what that stands for, and the rest. */
  lemma FirstGroup(v: string, rest: string) returns (group: string, out: string, tail: string)
    requires v != []
    ensures |tail| < |v| && Escape(v) == group + Escape(tail) && Sanitize(v) == out + Sanitize(tail)
    ensures ValidBody(group)
    ensures SafeStart(group + (Escape(tail) + rest)) && Decode(group + (Escape(tail) + rest)) == out + Decode(Escape(tail) + rest)
  {
    var n := Utf8Length(v);
    group, out, tail := EscapeGroup(v, n), if n == 0 then REPLACEMENT else v[..n], v[GroupLength(v)..];
    EscapeGroupDecodes(v, Escape(tail) + rest);
    DecodesAhead(group, Escape(tail) + rest, out);
  }

  /** Escaping round-trips whatever follows, up to the replacement of stray bytes. */
  lemma {:induction false} EscapeDecodes(v: string, rest: string)
    ensures Decode(Escape(v) + rest) == Sanitize(v) + Decode(rest)
    ensures v != [] ==> SafeStart(Escape(v) + rest)
    ensures ValidBody(Escape(v))
    decreases |v|
  {
    if v == [] {
      assert Escape(v) + rest == rest;
    } else {
      var group, out, tail := FirstGroup(v, rest);
      EscapeDecodes(tail, rest);
      Regroup(group, Escape(tail), rest);
      Regroup(out, Sanitize(tail), Decode(rest));
      ValidBodyConcat(group, Escape(tail));
    }
  }

  /** A value survives the trip through json.Marshal exactly when it is valid UTF-8. */
  lemma EscapeRoundTripsIff(v: string)
    ensures Decode(Escape(v)) == v <==> ValidUtf8(v)
  {
    EscapeDecodes(v, []);
    assert Escape(v) + [] == Escape(v);
    SanitizeKeepsIff(v);
  }

  lemma {:induction false} SanitizeKeepsIff(v: string)
    ensures Sanitize(v) == v <==> ValidUtf8(v)
    decreases |v|
  {
    if v != [] {
      var n := Utf8Length(v);
      if n == 0 {
        assert REPLACEMENT <= Sanitize(v);
        assert !(REPLACEMENT <= v);
      } else {
        SanitizeKeepsIff(v[n..]);
        assert v == v[..n] + v[n..];
        assert Sanitize(v)[n..] == Sanitize(v[n..]);
      }
    }
  }

  // Code points.

  /** The code point a UTF-8 sequence of this length encodes (RFC 3629, section 3). */
  function CodePoint(s: string): int
    requires 1 <= |s| <= 4
  {
    if |s| == 1 then s[0] as int
    else if |s| == 2 then (s[0] as int - 0xC0) * 0x40 + (s[1] as int - 0x80)
    else if |s| == 3 then (s[0] as int - 0xE0) * 0x1000 + (s[1] as int - 0x80) * 0x40 + (s[2] as int - 0x80)
    else (s[0] as int - 0xF0) * 0x4_0000 + (s[1] as int - 0x80) * 0x1000 + (s[2] as int - 0x80) * 0x40 + (s[3] as int - 0x80)
  }

  lemma EncodeReadsBack(p: nat)
    requires p < 0x11_0000
    ensures |Encode(p)| == (if p < 0x80 then 1 else if p < 0x800 then 2 else if p < 0x1_0000 then 3 else 4)
    ensures CodePoint(Encode(p)) == p
  {
    assert p / 0x1000 == p / 0x40 / 0x40 && p / 0x4_0000 == p / 0x1000 / 0x40;
    assert p == p / 0x40 * 0x40 + p % 0x40;
    assert p / 0x40 == p / 0x1000 * 0x40 + p / 0x40 % 0x40;
    assert p / 0x1000 == p / 0x4_0000 * 0x40 + p / 0x1000 % 0x40;
  }

  lemma HexBothCases(n: nat)
    requires n < 16
    ensures HexValue("0123456789abcdef"[n]) == n && HexValue("0123456789ABCDEF"[n]) == n
  {
  }

  /** Two escapes that are the UTF-16 of a code point decode to that code point. */
  lemma SurrogatesDecode(s: string, p: nat)
    requires UnicodeEscape(s) && UnicodeEscape(s[6..]) && 0x1_0000 <= p < 0x11_0000
    requires CodeUnit(s) == 0xD800 + (p - 0x1_0000) / 0x400 && CodeUnit(s[6..]) == 0xDC00 + (p - 0x1_0000) % 0x400
    ensures DecodeStep(s) == (12, Encode(p))
  {
  }

  /** One escape that is a code point of its own decodes to it; half a pair does not. */
  lemma EscapeDecodesUnit(s: string)
    requires UnicodeEscape(s) && !HighSurrogate(CodeUnit(s))
    ensures DecodeStep(s) == (6, if LowSurrogate(CodeUnit(s)) then "\U{EF}\U{BF}\U{BD}" else Encode(CodeUnit(s)))
  {
  }

  /** The two-byte escapes of section 7 of RFC 8259. */
  lemma SimpleEscapes(rest: string)
    ensures DecodeStep("\\\"" + rest) == (2, "\"") && DecodeStep("\\\\" + rest) == (2, "\\") && DecodeStep("\\/" + rest) == (2, "/")
    ensures DecodeStep("\\b" + rest) == (2, [8 as char]) && DecodeStep("\\f" + rest) == (2, [12 as char])
    ensures DecodeStep("\\n" + rest) == (2, "\n") && DecodeStep("\\r" + rest) == (2, "\r") && DecodeStep("\\t" + rest) == (2, "\t")
  {
  }
}
