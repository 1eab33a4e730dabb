/** The confirmation card's preview literal: `_safe_preview_literal` and its decoder. */
module ActionPreview {
  import opened Wrappers
  import opened Json

  const AT: CodePoint := 0x40

  /** The characters Discord reads as Markdown or mention syntax: ` * _ ~ | [ ] < > */
  const MARKERS: Text := [0x60, 0x2A, 0x5F, 0x7E, 0x7C, 0x5B, 0x5D, 0x3C, 0x3E]

  /** The six characters \u200b, the written form of ZERO WIDTH SPACE. */
  const ZERO_WIDTH: Text := [BACKSLASH, 0x75, 0x32, 0x30, 0x30, 0x62]

  /** Unicode general category C*, Zl or Zp, as a predicate; printable ASCII is in none of them. */
  type Category = CodePoint -> bool

  ghost predicate AsciiIsVisible(hidden: Category) {
    forall c: CodePoint :: 0x20 <= c <= 0x7E ==> !hidden(c)
  }

  function EscapePreviewCharacter(hidden: Category, c: CodePoint): Text {
    if !hidden(c) then [c]
    else if c <= 0xFFFF then [BACKSLASH, 0x75] + Hex(c, 4)
    else [BACKSLASH, 0x55] + Hex(c, 8)
  }

  /** Python's `t.replace(c, r)` for a one-character pattern. */
  function Replace(t: Text, c: CodePoint, r: Text): Text {
    FlatMap(x => if x == c then r else [x], t)
  }

  function EscapeMarkers(t: Text, markers: Text): Text
    decreases markers
  {
    if markers == [] then t
    else EscapeMarkers(Replace(t, markers[0], [BACKSLASH, markers[0]]), markers[1..])
  }

  /** The stages after `json.dumps`. */
  function Finish(hidden: Category, t: Text): Text {
    EscapeMarkers(Replace(FlatMap(c => EscapePreviewCharacter(hidden, c), t), AT, ZERO_WIDTH_AFTER_AT), MARKERS)
  }

  const ZERO_WIDTH_AFTER_AT: Text := [AT] + ZERO_WIDTH

  function SafePreviewLiteral(hidden: Category, value: Text): Text {
    Finish(hidden, StringLiteral(value))
  }

  // ---------------------------------------------------------------------
  // The staged printer writes each character on its own
  // ---------------------------------------------------------------------

  /** What the whole pipeline prints for one character of the message. */
  function Printed(hidden: Category, c: CodePoint): Text {
    if c == BACKSLASH || c == QUOTE || c < 0x20 then EscapeCharacter(c)
    else if hidden(c) then EscapePreviewCharacter(hidden, c)
    else if c == AT then ZERO_WIDTH_AFTER_AT
    else if c in MARKERS then [BACKSLASH, c]
    else [c]
  }

  function PrintedBody(hidden: Category, value: Text): Text {
    FlatMap(c => Printed(hidden, c), value)
  }

  lemma {:induction false} EscapeMarkersConcat(s: Text, t: Text, markers: Text)
    ensures EscapeMarkers(s + t, markers) == EscapeMarkers(s, markers) + EscapeMarkers(t, markers)
    decreases markers
  {
    if markers != [] {
      var m := markers[0];
      FlatMapConcat(x => if x == m then [BACKSLASH, m] else [x], s, t);
      EscapeMarkersConcat(Replace(s, m, [BACKSLASH, m]), Replace(t, m, [BACKSLASH, m]), markers[1..]);
    }
  }

  lemma FinishConcat(hidden: Category, s: Text, t: Text)
    ensures Finish(hidden, s + t) == Finish(hidden, s) + Finish(hidden, t)
  {
    var visible: CodePoint -> Text := c => EscapePreviewCharacter(hidden, c);
    var mention: CodePoint -> Text := x => if x == AT then ZERO_WIDTH_AFTER_AT else [x];
    FlatMapConcat(visible, s, t);
    FlatMapConcat(mention, FlatMap(visible, s), FlatMap(visible, t));
    EscapeMarkersConcat(Replace(FlatMap(visible, s), AT, ZERO_WIDTH_AFTER_AT),
                        Replace(FlatMap(visible, t), AT, ZERO_WIDTH_AFTER_AT), MARKERS);
  }

  /** Letters, digits, quotes and backslashes: the characters no later stage touches. */
  predicate Inert(c: CodePoint) {
    c == BACKSLASH || c == QUOTE || 0x30 <= c <= 0x39 || 0x41 <= c <= 0x5A || 0x61 <= c <= 0x7A
  }

  lemma ReplaceInert(t: Text, c: CodePoint, r: Text)
    requires c !in t
    ensures Replace(t, c, r) == t
  {
    FlatMapFixed(x => if x == c then r else [x], t);
  }

  lemma {:induction false} EscapeMarkersInert(t: Text, markers: Text)
    requires forall m :: m in markers ==> m !in t
    ensures EscapeMarkers(t, markers) == t
  {
    if markers != [] {
      ReplaceInert(t, markers[0], [BACKSLASH, markers[0]]);
      EscapeMarkersInert(t, markers[1..]);
    }
  }

  lemma FinishInert(hidden: Category, t: Text)
    requires AsciiIsVisible(hidden)
    requires forall c :: c in t ==> Inert(c)
    ensures Finish(hidden, t) == t
  {
    FlatMapFixed(c => EscapePreviewCharacter(hidden, c), t);
    ReplaceInert(t, AT, ZERO_WIDTH_AFTER_AT);
    EscapeMarkersInert(t, MARKERS);
  }

  lemma {:induction false} HexInert(n: nat, width: nat)
    ensures forall c :: c in Hex(n, width) ==> Inert(c) && HexValue(c) >= 0
  {
    if width > 0 {
      HexInert(n / 16, width - 1);
    }
  }

  /** `\\uXXXX` or `\\UXXXXXXXX`: letters and digits after one backslash. */
  ghost predicate HexEscape(p: Text) {
    && |p| > 1
    && p[|p| - 1] != BACKSLASH
    && forall i :: 0 <= i < |p| ==> Inert(p[i])
  }

  lemma HexEscapeOf(c: CodePoint, letter: CodePoint, width: nat)
    requires width > 0 && Inert(letter)
    ensures HexEscape([BACKSLASH, letter] + Hex(c, width))
  {
    HexInert(c, width);
    var p, h := [BACKSLASH, letter] + Hex(c, width), Hex(c, width);
    forall i | 0 <= i < |p| ensures Inert(p[i]) {
      if i >= 2 {
        assert p[i] == h[i - 2] && h[i - 2] in h;
      }
    }
    assert p[|p| - 1] == h[|h| - 1] && h[|h| - 1] in h;
  }

  /** Escaping one marker: the stage for that marker fires, the others leave it alone. */
  lemma {:induction false} EscapeMarkersOfMarker(c: CodePoint, markers: Text)
    requires c in markers && c != BACKSLASH && BACKSLASH !in markers
    requires forall i, j :: 0 <= i < j < |markers| ==> markers[i] != markers[j]
    ensures EscapeMarkers([c], markers) == [BACKSLASH, c]
  {
    var m := markers[0];
    if m == c {
      FlatMapOne(x => if x == m then [BACKSLASH, m] else [x], c);
      EscapeMarkersInert([BACKSLASH, c], markers[1..]);
    } else {
      ReplaceInert([c], m, [BACKSLASH, m]);
      EscapeMarkersOfMarker(c, markers[1..]);
    }
  }

  lemma FinishHidden(hidden: Category, c: CodePoint)
    requires hidden(c)
    ensures Finish(hidden, [c]) == EscapePreviewCharacter(hidden, c)
  {
    var t := EscapePreviewCharacter(hidden, c);
    FlatMapOne(x => EscapePreviewCharacter(hidden, x), c);
    HexEscapeOf(c, 0x75, 4);
    HexEscapeOf(c, 0x55, 8);
    FinishHexEscape(t);
  }

  lemma FinishHexEscape(t: Text)
    requires HexEscape(t)
    ensures EscapeMarkers(Replace(t, AT, ZERO_WIDTH_AFTER_AT), MARKERS) == t
  {
    ReplaceInert(t, AT, ZERO_WIDTH_AFTER_AT);
    EscapeMarkersInert(t, MARKERS);
  }

  lemma FinishVisible(hidden: Category, c: CodePoint)
    requires !hidden(c) && c != BACKSLASH
    ensures Finish(hidden, [c])
         == if c == AT then ZERO_WIDTH_AFTER_AT else if c in MARKERS then [BACKSLASH, c] else [c]
  {
    FlatMapOne(x => EscapePreviewCharacter(hidden, x), c);
    if c == AT {
      FlatMapOne(x => if x == AT then ZERO_WIDTH_AFTER_AT else [x], c);
      EscapeMarkersInert(ZERO_WIDTH_AFTER_AT, MARKERS);
    } else {
      ReplaceInert([c], AT, ZERO_WIDTH_AFTER_AT);
      if c in MARKERS {
        EscapeMarkersOfMarker(c, MARKERS);
      } else {
        EscapeMarkersInert([c], MARKERS);
      }
    }
  }

  lemma FinishEscaped(hidden: Category, c: CodePoint)
    requires AsciiIsVisible(hidden) && (c == BACKSLASH || c == QUOTE || c < 0x20)
    ensures Finish(hidden, EscapeCharacter(c)) == EscapeCharacter(c)
  {
    HexInert(c, 4);
    FinishInert(hidden, EscapeCharacter(c));
  }

  lemma FinishCharacter(hidden: Category, c: CodePoint)
    requires AsciiIsVisible(hidden)
    ensures Finish(hidden, EscapeCharacter(c)) == Printed(hidden, c)
  {
    if c == BACKSLASH || c == QUOTE || c < 0x20 {
      FinishEscaped(hidden, c);
    } else if hidden(c) {
      FinishHidden(hidden, c);
    } else {
      FinishVisible(hidden, c);
    }
  }

  lemma {:induction false} FinishBody(hidden: Category, value: Text)
    requires AsciiIsVisible(hidden)
    ensures Finish(hidden, FlatMap(EscapeCharacter, value)) == PrintedBody(hidden, value)
  {
    if value == [] {
      FinishInert(hidden, []);
    } else {
      FinishConcat(hidden, EscapeCharacter(value[0]), FlatMap(EscapeCharacter, value[1..]));
      FinishCharacter(hidden, value[0]);
      FinishBody(hidden, value[1..]);
    }
  }

  /** The twelve passes over the whole text equal one pass that prints each character separately. */
  lemma StagedEqualsOnePass(hidden: Category, value: Text)
    requires AsciiIsVisible(hidden)
    ensures SafePreviewLiteral(hidden, value) == [QUOTE] + PrintedBody(hidden, value) + [QUOTE]
  {
    FinishConcat(hidden, [QUOTE] + FlatMap(EscapeCharacter, value), [QUOTE]);
    FinishConcat(hidden, [QUOTE], FlatMap(EscapeCharacter, value));
    FinishInert(hidden, [QUOTE]);
    FinishBody(hidden, value);
  }

  // ---------------------------------------------------------------------
  // The decoder
  // ---------------------------------------------------------------------

  /** The character a one-letter escape stands for; markers stand for themselves. */
  function ShortEscape(c: CodePoint): Option<CodePoint> {
    if c == BACKSLASH || c == QUOTE || c in MARKERS then Some(c)
    else if c == 0x6E then Some(0x0A)
    else if c == 0x72 then Some(0x0D)
    else if c == 0x74 then Some(0x09)
    else if c == 0x66 then Some(0x0C)
    else if c == 0x62 then Some(0x08)
    else None
  }

  /** The first message character of `t` and the number of characters it is written with. */
  function DecodeOne(t: Text): (r: Option<(CodePoint, nat)>)
    requires t != []
    ensures r.Some? ==> 0 < r.value.1 <= |t|
  {
    if t[0] == BACKSLASH then
      if |t| < 2 then None
      else if t[1] == 0x75 || t[1] == 0x55 then
        var end := if t[1] == 0x75 then 6 else 10;
        if |t| < end then None
        else
          var v := ParseHex(t[2..end]);
          if 0 <= v <= 0x10FFFF then Some((v, end)) else None
      else
        match ShortEscape(t[1])
        case Some(c) => Some((c, 2))
        case None => None
    else if t[0] == AT then
      if |t| >= 7 && t[..7] == ZERO_WIDTH_AFTER_AT then Some((AT, 7)) else None
    else Some((t[0], 1))
  }

  function DecodeBody(t: Text): Option<Text> {
    if t == [] then None
    else if t[0] == QUOTE then (if |t| == 1 then Some([]) else None)
    else
      match DecodeOne(t)
      case None => None
      case Some((c, width)) =>
        match DecodeBody(t[width..])
        case None => None
        case Some(rest) => Some([c] + rest)
  }

  function DecodePreviewLiteral(t: Text): Option<Text> {
    if t != [] && t[0] == QUOTE then DecodeBody(t[1..]) else None
  }

  lemma DecodeHexEscape(letter: CodePoint, width: nat, c: CodePoint, rest: Text)
    requires (letter == 0x75 && width == 4) || (letter == 0x55 && width == 8)
    requires c < Pow16(width)
    ensures DecodeOne([BACKSLASH, letter] + Hex(c, width) + rest) == Some((c, width + 2))
  {
    HexRoundTrip(c, width);
    var t := [BACKSLASH, letter] + Hex(c, width) + rest;
    assert t[2..width + 2] == Hex(c, width);
  }

  lemma DecodeEscaped(hidden: Category, c: CodePoint, rest: Text)
    requires c == BACKSLASH || c == QUOTE || c < 0x20 || hidden(c)
    ensures var p := Printed(hidden, c);
            p[0] == BACKSLASH && DecodeOne(p + rest) == Some((c, |p|))
  {
    assert Pow16(4) == 0x10000;
    assert Pow16(8) == 0x10000 * 0x10000;
    var p := Printed(hidden, c);
    if |p| == 6 {
      DecodeHexEscape(0x75, 4, c, rest);
    } else if |p| == 10 {
      DecodeHexEscape(0x55, 8, c, rest);
    }
  }

  lemma DecodePrinted(hidden: Category, c: CodePoint, rest: Text)
    ensures var t := Printed(hidden, c) + rest;
            t != [] && t[0] != QUOTE && DecodeOne(t) == Some((c, |Printed(hidden, c)|))
  {
    if c == BACKSLASH || c == QUOTE || c < 0x20 || hidden(c) {
      DecodeEscaped(hidden, c, rest);
    } else if c == AT {
      assert (ZERO_WIDTH_AFTER_AT + rest)[..7] == ZERO_WIDTH_AFTER_AT;
    }
  }

  lemma {:induction false} DecodePrintedBody(hidden: Category, value: Text)
    requires AsciiIsVisible(hidden)
    ensures DecodeBody(PrintedBody(hidden, value) + [QUOTE]) == Some(value)
  {
    if value == [] {
      assert PrintedBody(hidden, value) + [QUOTE] == [QUOTE];
    } else {
      var p := Printed(hidden, value[0]);
      var rest := PrintedBody(hidden, value[1..]) + [QUOTE];
      DecodePrinted(hidden, value[0], rest);
      DecodePrintedBody(hidden, value[1..]);
      var t := p + rest;
      assert PrintedBody(hidden, value) + [QUOTE] == t;
      assert t[|p|..] == rest;
      assert DecodeBody(t) == Some([value[0]] + value[1..]);
      assert [value[0]] + value[1..] == value;
    }
  }

  /** Every message text is recovered exactly from its preview. */
  lemma PreviewRoundTrip(hidden: Category, value: Text)
    requires AsciiIsVisible(hidden)
    ensures DecodePreviewLiteral(SafePreviewLiteral(hidden, value)) == Some(value)
  {
    StagedEqualsOnePass(hidden, value);
    DecodePrintedBody(hidden, value);
    var t := SafePreviewLiteral(hidden, value);
    assert t[1..] == PrintedBody(hidden, value) + [QUOTE];
  }

  /** Two different messages never show the same preview. */
  lemma PreviewInjective(hidden: Category, a: Text, b: Text)
    requires AsciiIsVisible(hidden)
    ensures SafePreviewLiteral(hidden, a) == SafePreviewLiteral(hidden, b) <==> a == b
  {
    PreviewRoundTrip(hidden, a);
    PreviewRoundTrip(hidden, b);
  }

  // ---------------------------------------------------------------------
  // The preview is inert in Discord
  // ---------------------------------------------------------------------

  /** How many backslashes stand directly before position `i`. */
  function BackslashesBefore(t: Text, i: nat): nat
    requires i <= |t|
  {
    if i == 0 || t[i - 1] != BACKSLASH then 0 else 1 + BackslashesBefore(t, i - 1)
  }

  lemma {:induction false} BackslashesBeforePrefix(s: Text, t: Text, i: nat)
    requires i <= |s|
    ensures BackslashesBefore(s + t, i) == BackslashesBefore(s, i)
  {
    if i > 0 && s[i - 1] == BACKSLASH {
      BackslashesBeforePrefix(s, t, i - 1);
    }
  }

  /** What the card needs of position `i`: no live marker, no live mention, nothing invisible. */
  ghost predicate InertAt(hidden: Category, t: Text, i: nat)
    requires i < |t|
  {
    && !hidden(t[i])
    && (t[i] in MARKERS ==> BackslashesBefore(t, i) % 2 == 1)
    && (t[i] == AT ==> i + 7 <= |t| && t[i..i + 7] == ZERO_WIDTH_AFTER_AT)
  }

  ghost predicate SafeText(hidden: Category, t: Text) {
    && (forall i :: 0 <= i < |t| ==> InertAt(hidden, t, i))
    && BackslashesBefore(t, |t|) % 2 == 0
  }

  /** The four shapes a printed character can have. */
  lemma PrintedShape(hidden: Category, c: CodePoint)
    requires AsciiIsVisible(hidden)
    ensures var p := Printed(hidden, c);
            || (p == [c] && !hidden(c) && c != AT && c != BACKSLASH && c !in MARKERS)
            || (exists d: CodePoint :: p == [BACKSLASH, d] && !hidden(d) && d != AT)
            || p == ZERO_WIDTH_AFTER_AT
            || HexEscape(p)
  {
    var p := Printed(hidden, c);
    if c == BACKSLASH || c == QUOTE || c < 0x20 {
      if |p| == 2 {
        assert p == [BACKSLASH, p[1]] && 0x20 <= p[1] <= 0x7E;
      } else {
        HexEscapeOf(c, 0x75, 4);
      }
    } else if hidden(c) {
      HexEscapeOf(c, 0x75, 4);
      HexEscapeOf(c, 0x55, 8);
    } else if c in MARKERS {
      assert c == AT || p == [BACKSLASH, c];
    }
  }

  lemma SafePrefixOf(hidden: Category, s: Text, p: Text)
    requires SafeText(hidden, s)
    ensures forall i :: 0 <= i < |s| ==> InertAt(hidden, s + p, i)
    ensures BackslashesBefore(s + p, |s|) % 2 == 0
  {
    var t := s + p;
    BackslashesBeforePrefix(s, p, |s|);
    forall i | 0 <= i < |s| ensures InertAt(hidden, t, i) {
      assert InertAt(hidden, s, i);
      BackslashesBeforePrefix(s, p, i);
      if t[i] == AT {
        assert t[i..i + 7] == s[i..i + 7];
      }
    }
  }

  /** A safe text followed by a backslash pair. */
  lemma SafePairExtends(hidden: Category, s: Text, c: CodePoint)
    requires AsciiIsVisible(hidden) && SafeText(hidden, s) && !hidden(c) && c != AT
    ensures SafeText(hidden, s + [BACKSLASH, c])
  {
    var t := s + [BACKSLASH, c];
    SafePrefixOf(hidden, s, [BACKSLASH, c]);
    assert t[|s|] == BACKSLASH && t[|s| + 1] == c && |t| == |s| + 2;
    assert BackslashesBefore(t, |s| + 1) == 1 + BackslashesBefore(t, |s|);
    assert InertAt(hidden, t, |s|) && InertAt(hidden, t, |s| + 1);
  }

  lemma SafeHexExtends(hidden: Category, s: Text, p: Text)
    requires AsciiIsVisible(hidden) && SafeText(hidden, s) && HexEscape(p)
    ensures SafeText(hidden, s + p)
  {
    var t := s + p;
    SafePrefixOf(hidden, s, p);
    forall i | |s| <= i < |t| ensures InertAt(hidden, t, i) {
      assert t[i] == p[i - |s|] && Inert(t[i]);
    }
    assert t[|t| - 1] == p[|p| - 1];
  }

  lemma SafeMentionExtends(hidden: Category, s: Text)
    requires AsciiIsVisible(hidden) && SafeText(hidden, s)
    ensures SafeText(hidden, s + ZERO_WIDTH_AFTER_AT)
  {
    var p := ZERO_WIDTH_AFTER_AT;
    var t := s + p;
    SafePrefixOf(hidden, s, p);
    forall i | |s| <= i < |t| ensures InertAt(hidden, t, i) {
      assert t[i] == p[i - |s|];
      if t[i] == AT {
        assert i == |s| && t[i..i + 7] == p;
      }
    }
    assert t[|t| - 1] == p[6];
  }

  lemma SafeTextExtends(hidden: Category, s: Text, c: CodePoint)
    requires AsciiIsVisible(hidden) && SafeText(hidden, s)
    ensures SafeText(hidden, s + Printed(hidden, c))
  {
    var p := Printed(hidden, c);
    PrintedShape(hidden, c);
    if p == ZERO_WIDTH_AFTER_AT {
      SafeMentionExtends(hidden, s);
    } else if HexEscape(p) {
      SafeHexExtends(hidden, s, p);
    } else if p == [c] && !hidden(c) && c != BACKSLASH && c != AT && c !in MARKERS {
      SafePrefixOf(hidden, s, p);
      assert (s + p)[|s|] == c;
    } else {
      var d :| p == [BACKSLASH, d] && !hidden(d) && d != AT;
      SafePairExtends(hidden, s, d);
    }
  }

  /** The opening quote and the characters printed so far. */
  function Opened(hidden: Category, value: Text): Text {
    [QUOTE] + PrintedBody(hidden, value)
  }

  lemma OpenedSnoc(hidden: Category, value: Text, c: CodePoint)
    ensures Opened(hidden, value + [c]) == Opened(hidden, value) + Printed(hidden, c)
  {
    FlatMapConcat(x => Printed(hidden, x), value, [c]);
    FlatMapOne(x => Printed(hidden, x), c);
  }

  lemma {:induction false} SafePrefix(hidden: Category, value: Text)
    requires AsciiIsVisible(hidden)
    ensures SafeText(hidden, Opened(hidden, value))
  {
    if value == [] {
    } else {
      var front, c := value[..|value| - 1], value[|value| - 1];
      assert value == front + [c];
      SafePrefix(hidden, front);
      SafeTextExtends(hidden, Opened(hidden, front), c);
      OpenedSnoc(hidden, front, c);
    }
  }

  lemma SafeClosed(hidden: Category, s: Text)
    requires AsciiIsVisible(hidden) && SafeText(hidden, s)
    ensures forall i :: 0 <= i < |s| + 1 ==> InertAt(hidden, s + [QUOTE], i)
  {
    SafePrefixOf(hidden, s, [QUOTE]);
  }

  /** Every marker follows an odd run of backslashes, every `@` is broken up, no hidden character is left. */
  lemma PreviewIsInert(hidden: Category, value: Text)
    requires AsciiIsVisible(hidden)
    ensures var t := SafePreviewLiteral(hidden, value);
            forall i :: 0 <= i < |t| ==> InertAt(hidden, t, i)
  {
    StagedEqualsOnePass(hidden, value);
    SafePrefix(hidden, value);
    SafeClosed(hidden, Opened(hidden, value));
  }
}
