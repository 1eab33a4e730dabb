/** JSON string literals over Python text, as `json.dumps(value, ensure_ascii=False)` prints them. */
module Json {

  /** Python text is a sequence of Unicode code points; lone surrogates are allowed. */
  type CodePoint = c: int | 0 <= c <= 0x10FFFF
  type Text = seq<CodePoint>

  const BACKSLASH: CodePoint := 0x5C
  const QUOTE: CodePoint := 0x22

  function HexDigit(d: nat): CodePoint
    requires d < 16
  {
    if d < 10 then 0x30 + d else 0x61 + (d - 10)
  }

  /** The low `width` hexadecimal digits of `n`, lower case, most significant first. */
  function Hex(n: nat, width: nat): (t: Text)
    ensures |t| == width
  {
    if width == 0 then [] else Hex(n / 16, width - 1) + [HexDigit(n % 16)]
  }

  function HexValue(c: CodePoint): (v: int)
    ensures -1 <= v < 16
  {
    if 0x30 <= c <= 0x39 then c - 0x30
    else if 0x61 <= c <= 0x66 then c - 0x61 + 10
    else -1
  }

  /** Reads lower-case hexadecimal digits; -1 when some character is not one. */
  function ParseHex(t: Text): (v: int)
    ensures -1 <= v
  {
    if t == [] then 0
    else
      var high := ParseHex(t[..|t| - 1]);
      var low := HexValue(t[|t| - 1]);
      if high < 0 || low < 0 then -1 else high * 16 + low
  }

  function Pow16(width: nat): (p: nat)
    ensures p > 0
  {
    if width == 0 then 1 else 16 * Pow16(width - 1)
  }

  lemma {:induction false} HexRoundTrip(n: nat, width: nat)
    requires n < Pow16(width)
    ensures ParseHex(Hex(n, width)) == n
  {
    if width > 0 {
      assert n / 16 < Pow16(width - 1);
      HexRoundTrip(n / 16, width - 1);
      var t := Hex(n, width);
      assert t[..|t| - 1] == Hex(n / 16, width - 1);
    }
  }

  /** One character inside a JSON string: section 7 of RFC 8259, with every other character kept as it is. */
  function EscapeCharacter(c: CodePoint): Text {
    if c == BACKSLASH then [BACKSLASH, BACKSLASH]
    else if c == QUOTE then [BACKSLASH, QUOTE]
    else if c == 0x0A then [BACKSLASH, 0x6E]
    else if c == 0x0D then [BACKSLASH, 0x72]
    else if c == 0x09 then [BACKSLASH, 0x74]
    else if c == 0x0C then [BACKSLASH, 0x66]
    else if c == 0x08 then [BACKSLASH, 0x62]
    else if c < 0x20 then [BACKSLASH, 0x75] + Hex(c, 4)
    else [c]
  }

  /** `"".join(f(c) for c in s)`. */
  function FlatMap(f: CodePoint -> Text, s: Text): Text {
    if s == [] then [] else f(s[0]) + FlatMap(f, s[1..])
  }

  lemma ConcatAssociative(a: Text, b: Text, c: Text)
    ensures a + (b + c) == (a + b) + c
  {
  }

  lemma {:induction false} FlatMapConcat(f: CodePoint -> Text, s: Text, t: Text)
    ensures FlatMap(f, s + t) == FlatMap(f, s) + FlatMap(f, t)
  {
    if s == [] {
      assert s + t == t;
    } else {
      FlatMapConcat(f, s[1..], t);
      assert (s + t)[1..] == s[1..] + t;
      ConcatAssociative(f(s[0]), FlatMap(f, s[1..]), FlatMap(f, t));
    }
  }

  lemma FlatMapOne(f: CodePoint -> Text, c: CodePoint)
    ensures FlatMap(f, [c]) == f(c)
  {
    assert FlatMap(f, [c][1..]) == [];
  }

  lemma {:induction false} FlatMapFixed(f: CodePoint -> Text, s: Text)
    requires forall c :: c in s ==> f(c) == [c]
    ensures FlatMap(f, s) == s
  {
    if s != [] {
      FlatMapFixed(f, s[1..]);
    }
  }

  /** A JSON string literal; every character is escaped on its own. */
  function StringLiteral(s: Text): Text {
    [QUOTE] + FlatMap(EscapeCharacter, s) + [QUOTE]
  }
}
