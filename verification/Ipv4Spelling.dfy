/** IPv4 addresses as browsers accept them: one to four parts, each decimal, octal or hexadecimal. */
module Ipv4Spelling {
  import opened Wrappers
  import opened PyText

  // ---------------------------------------------------------------------
  // Digits
  // ---------------------------------------------------------------------

  /** The value of a digit, or -1. */
  function DigitOf(c: char): int {
    if '0' <= c <= '9' then c as int - '0' as int
    else if 'a' <= c <= 'f' then c as int - 'a' as int + 10
    else if 'A' <= c <= 'F' then c as int - 'A' as int + 10
    else -1
  }

  datatype Radix = Decimal | Octal | Hexadecimal

  function Base(r: Radix): (n: nat)
    ensures 8 <= n <= 16
  {
    match r case Decimal => 10 case Octal => 8 case Hexadecimal => 16
  }

  predicate IsDigit(c: char, base: Radix) {
    0 <= DigitOf(c) < Base(base)
  }

  function Times(v: nat, base: Radix): nat {
    match base case Decimal => v * 10 case Octal => v * 8 case Hexadecimal => v * 16
  }

  function Quotient(v: nat, base: Radix): (q: nat)
    ensures v >= Base(base) ==> 1 <= q < v
  {
    match base case Decimal => v / 10 case Octal => v / 8 case Hexadecimal => v / 16
  }

  function Rest(v: nat, base: Radix): (r: nat)
    ensures r < Base(base) && Times(Quotient(v, base), base) + r == v
  {
    match base case Decimal => v % 10 case Octal => v % 8 case Hexadecimal => v % 16
  }

  predicate AllDigits(s: string, base: Radix) {
    forall i :: 0 <= i < |s| ==> IsDigit(s[i], base)
  }

  function Value(s: string, base: Radix): nat
    requires AllDigits(s, base)
  {
    if s == [] then 0 else Times(Value(s[..|s| - 1], base), base) + DigitOf(s[|s| - 1])
  }

  function DigitChar(d: nat): char
    requires d < 16
  {
    if d < 10 then '0' + d as char else 'a' + (d - 10) as char
  }

  function Digits(v: nat, base: Radix): string {
    if v < Base(base) then [DigitChar(v)] else Digits(Quotient(v, base), base) + [DigitChar(Rest(v, base))]
  }

  predicate LowerDigits(s: string) {
    forall i :: 0 <= i < |s| ==> '0' <= s[i] <= '9' || 'a' <= s[i] <= 'f'
  }

  lemma ValueAppend(s: string, c: char, base: Radix)
    requires AllDigits(s, base) && IsDigit(c, base)
    ensures AllDigits(s + [c], base) && Value(s + [c], base) == Times(Value(s, base), base) + DigitOf(c)
  {
    assert (s + [c])[..|s|] == s;
  }

  /** `s` is a proper print of `v`: its digits, and no leading zero. */
  predicate Prints(s: string, v: nat, base: Radix) {
    && s != [] && LowerDigits(s) && AllDigits(s, base) && Value(s, base) == v
    && (s[0] == '0' ==> v == 0 && |s| == 1)
  }

  lemma PrintsMore(s: string, q: nat, r: nat, base: Radix)
    requires Prints(s, q, base) && q >= 1 && r < Base(base)
    ensures Prints(s + [DigitChar(r)], Times(q, base) + r, base)
  {
    ValueAppend(s, DigitChar(r), base);
  }

  /** Printed digits are read back, and only zero starts with a zero. */
  lemma {:induction false} DigitsRoundTrip(v: nat, base: Radix)
    ensures Prints(Digits(v, base), v, base)
  {
    if v >= Base(base) {
      DigitsRoundTrip(Quotient(v, base), base);
      PrintsMore(Digits(Quotient(v, base), base), Quotient(v, base), Rest(v, base), base);
    }
  }

  // ---------------------------------------------------------------------
  // Python's int()
  // ---------------------------------------------------------------------

  /** Digits with single underscores between them. */
  predicate Grouped(s: string, base: Radix) {
    && s != [] && s[0] != '_' && s[|s| - 1] != '_'
    && (forall i :: 0 <= i < |s| ==> s[i] == '_' || IsDigit(s[i], base))
    && forall i :: 0 <= i < |s| - 1 ==> !(s[i] == '_' && s[i + 1] == '_')
  }

  function WithoutUnderscores(s: string): string {
    if s == [] then []
    else WithoutUnderscores(s[..|s| - 1]) + if s[|s| - 1] == '_' then [] else [s[|s| - 1]]
  }

  lemma {:induction false} UngroupedDigits(s: string, base: Radix)
    requires forall i :: 0 <= i < |s| ==> s[i] == '_' || IsDigit(s[i], base)
    ensures AllDigits(WithoutUnderscores(s), base)
  {
    if s != [] {
      UngroupedDigits(s[..|s| - 1], base);
    }
  }

  function Unsigned(s: string): string {
    if s != [] && (s[0] == '+' || s[0] == '-') then s[1..] else s
  }

  /** The prefix the base allows, and one underscore after it. */
  function Unprefixed(s: string, base: Radix): string {
    if |s| >= 2 && s[0] == '0'
      && ((base == Hexadecimal && (s[1] == 'x' || s[1] == 'X')) || (base == Octal && (s[1] == 'o' || s[1] == 'O'))) then
      if |s| > 2 && s[2] == '_' then s[3..] else s[2..]
    else s
  }

  /** `int(s, base)` on ASCII text, `None` for `ValueError`: it strips, and takes a sign, a prefix and underscores. */
  function PyInt(s: string, base: Radix): Option<int> {
    var t := Strip(s);
    var w := Unprefixed(Unsigned(t), base);
    if !Grouped(w, base) then None
    else
      UngroupedDigits(w, base);
      var v := Value(WithoutUnderscores(w), base);
      Some(if t[0] == '-' then -(v as int) else v)
  }

  lemma {:induction false} PlainHasNoUnderscores(s: string, base: Radix)
    requires AllDigits(s, base)
    ensures WithoutUnderscores(s) == s
  {
    if s != [] {
      PlainHasNoUnderscores(s[..|s| - 1], base);
      assert IsDigit(s[|s| - 1], base);
    }
  }

  lemma DigitsAreGrouped(s: string, base: Radix)
    requires s != [] && AllDigits(s, base)
    ensures Grouped(s, base) && Unprefixed(s, base) == s && Unsigned(s) == s && !IsSpace(s[0]) && !IsSpace(s[|s| - 1])
  {
    assert IsDigit(s[0], base) && IsDigit(s[|s| - 1], base);
    if |s| >= 2 {
      assert IsDigit(s[1], base);
    }
    assert forall i :: 0 <= i < |s| ==> IsDigit(s[i], base);
  }

  lemma PyIntFrom(s: string, digits: string, base: Radix)
    requires s != [] && Strip(s) == s && Unsigned(s) == digits && digits != [] && AllDigits(digits, base)
    ensures PyInt(s, base) == Some(if s[0] == '-' then -(Value(digits, base) as int) else Value(digits, base))
  {
    DigitsAreGrouped(digits, base);
    PlainHasNoUnderscores(digits, base);
  }

  /** On plain digits `int` is the value of the digits. */
  lemma PyIntOfDigits(s: string, base: Radix)
    requires s != [] && AllDigits(s, base)
    ensures PyInt(s, base) == Some(Value(s, base))
  {
    DigitsAreGrouped(s, base);
    StripTight(s);
    assert IsDigit(s[0], base);
    PyIntFrom(s, s, base);
  }

  // ---------------------------------------------------------------------
  // Parts
  // ---------------------------------------------------------------------

  /** `s.split(sep)`, with `head` known to be free of the separator. */
  function Split(head: string, s: string, sep: char): (parts: seq<string>)
    ensures parts != []
    decreases |s|
  {
    if s == [] then [head]
    else if s[0] == sep then [head] + Split([], s[1..], sep)
    else Split(head + [s[0]], s[1..], sep)
  }

  function Join(parts: seq<string>, sep: char): string {
    if parts == [] then [] else if |parts| == 1 then parts[0] else parts[0] + [sep] + Join(parts[1..], sep)
  }

  function TrimDots(s: string): string {
    if s != [] && s[|s| - 1] == '.' then TrimDots(s[..|s| - 1]) else s
  }

  predicate Free(s: string, c: char) {
    forall i :: 0 <= i < |s| ==> s[i] != c
  }

  lemma {:induction false} SplitWord(head: string, word: string, sep: char)
    requires Free(word, sep)
    ensures Split(head, word, sep) == [head + word]
    decreases |word|
  {
    if word == [] {
      assert head + word == head;
    } else {
      SplitWord(head + [word[0]], word[1..], sep);
      assert head + [word[0]] + word[1..] == head + word;
    }
  }

  lemma {:induction false} SplitFirst(head: string, word: string, rest: string, sep: char)
    requires Free(word, sep)
    ensures Split(head, word + [sep] + rest, sep) == [head + word] + Split([], rest, sep)
    decreases |word|
  {
    var s := word + [sep] + rest;
    if word == [] {
      assert s[1..] == rest && head + word == head;
    } else {
      assert s[1..] == word[1..] + [sep] + rest;
      SplitFirst(head + [word[0]], word[1..], rest, sep);
      assert head + [word[0]] + word[1..] == head + word;
    }
  }

  lemma {:induction false} SplitJoin(parts: seq<string>, sep: char)
    requires parts != [] && forall i :: 0 <= i < |parts| ==> Free(parts[i], sep)
    ensures Split([], Join(parts, sep), sep) == parts
  {
    if |parts| == 1 {
      SplitWord([], parts[0], sep);
      assert [] + parts[0] == parts[0];
    } else {
      SplitFirst([], parts[0], Join(parts[1..], sep), sep);
      assert [] + parts[0] == parts[0];
      SplitJoin(parts[1..], sep);
      assert parts == [parts[0]] + parts[1..];
    }
  }

  /** The opaque parts: case folding, and the IPv6 parser of the `ipaddress` module. */
  datatype Host = Host(fold: string -> string, ipv6: string -> Option<nat>)

  predicate SpellingChar(c: char) {
    '0' <= c <= '9' || 'a' <= c <= 'f' || c == 'x'
  }

  predicate SpellingText(s: string) {
    forall i :: 0 <= i < |s| ==> SpellingChar(s[i])
  }

  /** Folding leaves digits and the letters of hexadecimal alone; an IPv6 address holds a colon. */
  ghost predicate HostOk(h: Host) {
    && (forall s :: SpellingText(s) ==> h.fold(s) == s)
    && (forall s :: h.ipv6(s).Some? ==> ':' in s)
  }

  /** Which digits of a folded part are read, and in which radix. */
  function PartDigits(n: string): Option<(string, Radix)> {
    if |n| > 2 && n[0] == '0' && n[1] == 'x' then Some((n[2..], Hexadecimal))
    else if |n| > 1 && n[0] == '0' then Some((n[1..], Octal))
    else if n != [] && AllDigits(n, Decimal) then Some((n, Decimal))
    else None
  }

  /** One part, as the loop reads it. */
  function PartOf(h: Host, part: string): Option<int> {
    var digits := PartDigits(h.fold(part));
    if digits.None? then None else PyInt(digits.value.0, digits.value.1)
  }

  /** A value in the place of part `i`: the top byte, the next, or the third. */
  function Placed(value: int, i: nat): int {
    if i == 0 then value * 0x100_0000 else if i == 1 then value * 0x1_0000 else value * 0x100
  }

  function Head(values: seq<int>): int
    requires |values| <= 3
  {
    if values == [] then 0 else Head(values[..|values| - 1]) + Placed(values[|values| - 1], |values| - 1)
  }

  /** The address that the values of the parts spell. */
  function MixedRadix(values: seq<int>): int
    requires 1 <= |values| <= 4
  {
    Head(values[..|values| - 1]) + values[|values| - 1]
  }

  function LastLimit(n: nat): int
    requires 1 <= n <= 4
  {
    if n == 1 then 0x1_0000_0000 else if n == 2 then 0x100_0000 else if n == 3 then 0x1_0000 else 0x100
  }

  predicate InRange(values: seq<int>)
    requires 1 <= |values| <= 4
  {
    (forall i :: 0 <= i < |values| - 1 ==> values[i] <= 255) && values[|values| - 1] < LastLimit(|values|)
  }

  /** The reading of a part, as a function of its text. */
  function Reader(h: Host): string -> Option<int> {
    (part: string) => PartOf(h, part)
  }

  function PartValues(read: string -> Option<int>, parts: seq<string>): Option<seq<int>> {
    if parts == [] then Some([])
    else
      var front, last := PartValues(read, parts[..|parts| - 1]), read(parts[|parts| - 1]);
      if front.None? || last.None? then None else Some(front.value + [last.value])
  }

  lemma {:induction false} PartValuesLength(read: string -> Option<int>, parts: seq<string>)
    ensures PartValues(read, parts).Some? ==> |PartValues(read, parts).value| == |parts|
  {
    if parts != [] {
      PartValuesLength(read, parts[..|parts| - 1]);
    }
  }

  datatype Address = V4(value: int) | V6(value6: nat) | NoAddress | Raises

  /** The branch for legacy spellings; a negative sum makes the `IPv4Address` constructor raise. */
  function Numeric(h: Host, candidate: string): Address {
    var parts := Split([], TrimDots(candidate), '.');
    var values := PartValues(Reader(h), parts);
    PartValuesLength(Reader(h), parts);
    if !(1 <= |parts| <= 4) || values.None? then NoAddress
    else if !InRange(values.value) then NoAddress
    else if MixedRadix(values.value) < 0 then Raises
    else V4(MixedRadix(values.value))
  }

  predicate Octet(part: string) {
    1 <= |part| <= 3 && AllDigits(part, Decimal) && (part[0] == '0' ==> |part| == 1) && Value(part, Decimal) <= 255
  }

  /** `ipaddress.IPv4Address`: four decimal octets without leading zeros. */
  function StrictQuad(s: string): Option<int> {
    var parts := Split([], s, '.');
    if |parts| == 4 && Octet(parts[0]) && Octet(parts[1]) && Octet(parts[2]) && Octet(parts[3]) then
      Some(Value(parts[0], Decimal) * 0x100_0000 + Value(parts[1], Decimal) * 0x1_0000
           + Value(parts[2], Decimal) * 0x100 + Value(parts[3], Decimal))
    else None
  }

  function WithoutZone(s: string): string {
    Split([], s, '%')[0]
  }

  function Parsed(h: Host, hostname: string): Address {
    var candidate := Strip(hostname);
    var strict := StrictQuad(WithoutZone(candidate));
    if strict.Some? then V4(strict.value)
    else if h.ipv6(WithoutZone(candidate)).Some? then V6(h.ipv6(WithoutZone(candidate)).value)
    else Numeric(h, candidate)
  }

  /** `_parse_ip_address`. */
  method ParseIpAddress(h: Host, hostname: string) returns (address: Address)
    ensures address == Parsed(h, hostname)
  {
    var candidate := Strip(hostname);
    var strict := StrictQuad(WithoutZone(candidate));
    if strict.Some? {
      return V4(strict.value);
    }
    var v6 := h.ipv6(WithoutZone(candidate));
    if v6.Some? {
      return V6(v6.value);
    }
    var parts := Split([], TrimDots(candidate), '.');
    if !(1 <= |parts| <= 4) {
      return NoAddress;
    }
    var values := ReadParts(Reader(h), parts);
    PartValuesLength(Reader(h), parts);
    if values.None? || !InRange(values.value) {
      return NoAddress;
    }
    address := Assemble(values.value);
  }

  /** The loop over the parts: the first part that cannot be read ends it. */
  method ReadParts(read: string -> Option<int>, parts: seq<string>) returns (values: Option<seq<int>>)
    ensures values == PartValues(read, parts)
  {
    var found: seq<int>, k := [], 0;
    while k < |parts|
      invariant 0 <= k <= |parts| && PartValues(read, parts[..k]) == Some(found)
    {
      assert parts[..k + 1][..k] == parts[..k];
      var value := read(parts[k]);
      if value.None? {
        NoValuesLater(read, parts, k + 1);
        return None;
      }
      found := found + [value.value];
      k := k + 1;
    }
    assert parts[..k] == parts;
    values := Some(found);
  }

  /** The final loop and the `IPv4Address` constructor. */
  method Assemble(values: seq<int>) returns (address: Address)
    requires 1 <= |values| <= 4 && InRange(values)
    ensures address == if MixedRadix(values) < 0 then Raises else V4(MixedRadix(values))
  {
    var sum := values[|values| - 1];
    var front := values[..|values| - 1];
    var i := 0;
    while i < |front|
      invariant 0 <= i <= |front| && sum == values[|values| - 1] + Head(front[..i])
    {
      assert front[..i + 1][..i] == front[..i];
      sum := sum + Placed(front[i], i);
      i := i + 1;
    }
    assert front[..i] == front;
    address := if sum < 0 then Raises else V4(sum);
  }

  lemma {:induction false} NoValuesLater(read: string -> Option<int>, parts: seq<string>, n: nat)
    requires n <= |parts| && PartValues(read, parts[..n]).None?
    ensures PartValues(read, parts).None?
  {
    if n < |parts| {
      assert parts[..|parts| - 1][..n] == parts[..n];
      NoValuesLater(read, parts[..|parts| - 1], n);
    } else {
      assert parts[..n] == parts;
    }
  }

  // ---------------------------------------------------------------------
  // Spellings
  // ---------------------------------------------------------------------

  /** A digit spelling of one part: its digits under the prefix of their radix. */
  datatype Spelling = Spelling(radix: Radix, digits: string)

  predicate WellSpelled(p: Spelling) {
    && p.digits != [] && LowerDigits(p.digits) && AllDigits(p.digits, p.radix)
    && (p.radix == Decimal && |p.digits| > 1 ==> p.digits[0] != '0')
  }

  function Text(p: Spelling): string {
    match p.radix case Decimal => p.digits case Octal => "0" + p.digits case Hexadecimal => "0x" + p.digits
  }

  function PartValue(p: Spelling): int
    requires WellSpelled(p)
  {
    Value(p.digits, p.radix)
  }

  /** A well-spelled part is read as the value of its digits. */
  lemma PartIsRead(h: Host, p: Spelling)
    requires HostOk(h) && WellSpelled(p)
    ensures Reader(h)(Text(p)) == Some(PartValue(p)) && SpellingText(Text(p)) && Text(p) != []
  {
    PyIntOfDigits(p.digits, p.radix);
    SpelledDigits(p);
  }

  lemma SpelledDigits(p: Spelling)
    requires WellSpelled(p)
    ensures SpellingText(Text(p)) && Text(p) != [] && PartDigits(Text(p)) == Some((p.digits, p.radix))
  {
    match p.radix {
      case Decimal =>
      case Octal =>
        assert Text(p)[1..] == p.digits;
        assert IsDigit(p.digits[0], Octal);
      case Hexadecimal =>
        assert Text(p)[2..] == p.digits;
    }
  }

  function Texts(spelling: seq<Spelling>): (texts: seq<string>)
    ensures |texts| == |spelling| && forall i :: 0 <= i < |spelling| ==> texts[i] == Text(spelling[i])
  {
    seq(|spelling|, i requires 0 <= i < |spelling| => Text(spelling[i]))
  }

  function Values(spelling: seq<Spelling>): (values: seq<int>)
    requires forall i :: 0 <= i < |spelling| ==> WellSpelled(spelling[i])
    ensures |values| == |spelling| && forall i :: 0 <= i < |spelling| ==> values[i] == PartValue(spelling[i])
  {
    seq(|spelling|, i requires 0 <= i < |spelling| => PartValue(spelling[i]))
  }

  lemma {:induction false} PartsAreValues(read: string -> Option<int>, parts: seq<string>, values: seq<int>)
    requires |parts| == |values| && forall i :: 0 <= i < |parts| ==> read(parts[i]) == Some(values[i])
    ensures PartValues(read, parts) == Some(values)
  {
    if parts != [] {
      var n := |parts| - 1;
      PartsAreValues(read, parts[..n], values[..n]);
      assert values == values[..n] + [values[n]];
    }
  }

  lemma PartsAreRead(h: Host, spelling: seq<Spelling>)
    requires HostOk(h) && forall i :: 0 <= i < |spelling| ==> WellSpelled(spelling[i])
    ensures PartValues(Reader(h), Texts(spelling)) == Some(Values(spelling))
  {
    forall i | 0 <= i < |spelling| ensures Reader(h)(Texts(spelling)[i]) == Some(Values(spelling)[i]) {
      PartIsRead(h, spelling[i]);
    }
    PartsAreValues(Reader(h), Texts(spelling), Values(spelling));
  }

  /** The whole host name: the parts with dots between them. */
  function HostText(spelling: seq<Spelling>): string {
    Join(Texts(spelling), '.')
  }

  predicate HostChar(c: char) {
    SpellingChar(c) || c == '.'
  }

  lemma {:induction false} JoinedText(parts: seq<string>)
    requires parts != [] && forall i :: 0 <= i < |parts| ==> parts[i] != [] && SpellingText(parts[i])
    ensures var s := Join(parts, '.');
            s != [] && (forall i :: 0 <= i < |s| ==> HostChar(s[i])) && SpellingChar(s[0]) && SpellingChar(s[|s| - 1])
  {
    if |parts| > 1 {
      JoinedText(parts[1..]);
    } else {
      assert SpellingText(parts[0]);
    }
  }

  lemma HostCharsAreClean(h: Host, s: string)
    requires HostOk(h) && s != [] && (forall i :: 0 <= i < |s| ==> HostChar(s[i])) && SpellingChar(s[0])
      && SpellingChar(s[|s| - 1])
    ensures Strip(s) == s && TrimDots(s) == s && WithoutZone(s) == s && h.ipv6(s).None?
  {
    StripTight(s);
    assert TrimDots(s) == s;
    assert Free(s, '%') && ':' !in s;
    SplitWord([], s, '%');
    assert [] + s == s;
  }

  lemma HostTextIsClean(h: Host, spelling: seq<Spelling>)
    requires HostOk(h) && spelling != [] && forall i :: 0 <= i < |spelling| ==> WellSpelled(spelling[i])
    ensures var s := HostText(spelling);
            Strip(s) == s && TrimDots(s) == s && WithoutZone(s) == s && h.ipv6(s).None?
              && Split([], s, '.') == Texts(spelling)
  {
    JoinedText(Texts(spelling));
    SplitJoin(Texts(spelling), '.');
    HostCharsAreClean(h, HostText(spelling));
  }

  lemma {:induction false} OctetIsRead(h: Host, part: string)
    requires HostOk(h) && Octet(part)
    ensures Reader(h)(part) == Some(Value(part, Decimal))
  {
    forall i | 0 <= i < |part| ensures SpellingChar(part[i]) {
      assert IsDigit(part[i], Decimal);
    }
    PyIntOfDigits(part, Decimal);
  }

  lemma MixedRadixOfFour(a: int, b: int, c: int, d: int)
    ensures MixedRadix([a, b, c, d]) == a * 0x100_0000 + b * 0x1_0000 + c * 0x100 + d
  {
    var v := [a, b, c];
    assert [a, b, c, d][..3] == v && v[..2] == [a, b] && [a, b][..1] == [a] && [a][..0] == [];
    assert Head([a]) == a * 0x100_0000;
    assert Head([a, b]) == Head([a]) + b * 0x1_0000;
    assert Head(v) == Head([a, b]) + c * 0x100;
  }

  lemma NumericFrom(h: Host, s: string, values: seq<int>)
    requires TrimDots(s) == s && 1 <= |values| <= 4 && PartValues(Reader(h), Split([], s, '.')) == Some(values)
    ensures Numeric(h, s) == if !InRange(values) then NoAddress
                             else if MixedRadix(values) < 0 then Raises else V4(MixedRadix(values))
  {
    PartValuesLength(Reader(h), Split([], s, '.'));
  }

  function OctetValues(parts: seq<string>): seq<int>
    requires |parts| == 4 && Octet(parts[0]) && Octet(parts[1]) && Octet(parts[2]) && Octet(parts[3])
  {
    [Value(parts[0], Decimal), Value(parts[1], Decimal), Value(parts[2], Decimal), Value(parts[3], Decimal)]
  }

  lemma OctetsAreRead(h: Host, parts: seq<string>)
    requires HostOk(h) && |parts| == 4 && Octet(parts[0]) && Octet(parts[1]) && Octet(parts[2]) && Octet(parts[3])
    ensures PartValues(Reader(h), parts) == Some(OctetValues(parts)) && InRange(OctetValues(parts))
  {
    forall i | 0 <= i < 4 ensures Reader(h)(parts[i]) == Some(OctetValues(parts)[i]) && OctetValues(parts)[i] <= 255 {
      OctetIsRead(h, parts[i]);
    }
    PartsAreValues(Reader(h), parts, OctetValues(parts));
  }

  lemma StrictIsMixedRadix(s: string)
    requires StrictQuad(s).Some?
    ensures var parts := Split([], s, '.');
            && |parts| == 4 && Octet(parts[0]) && Octet(parts[1]) && Octet(parts[2]) && Octet(parts[3])
            && StrictQuad(s).value == MixedRadix(OctetValues(parts))
  {
    var parts := Split([], s, '.');
    MixedRadixOfFour(Value(parts[0], Decimal), Value(parts[1], Decimal), Value(parts[2], Decimal),
                     Value(parts[3], Decimal));
  }

  /** Where both readings apply they agree: the strict one is only a short cut. */
  lemma StrictAgrees(h: Host, s: string)
    requires HostOk(h) && StrictQuad(s).Some? && TrimDots(s) == s
    ensures Numeric(h, s) == V4(StrictQuad(s).value)
  {
    StrictIsMixedRadix(s);
    var values := OctetValues(Split([], s, '.'));
    OctetsAreRead(h, Split([], s, '.'));
    NumericFrom(h, s, values);
    MixedRadixRange(values);
  }

  // ---------------------------------------------------------------------
  // The laws
  // ---------------------------------------------------------------------

  lemma {:induction false} HeadRange(values: seq<int>)
    requires |values| <= 3 && forall i :: 0 <= i < |values| ==> 0 <= values[i] <= 255
    ensures 0 <= Head(values) <= 0x1_0000_0000 - (if values == [] then 0x1_0000_0000 else Placed(1, |values| - 1))
  {
    if values != [] {
      HeadRange(values[..|values| - 1]);
    }
  }

  /** Values in range spell an address of 32 bits. */
  lemma MixedRadixRange(values: seq<int>)
    requires 1 <= |values| <= 4 && InRange(values) && forall i :: 0 <= i < |values| ==> 0 <= values[i]
    ensures 0 <= MixedRadix(values) < 0x1_0000_0000
  {
    HeadRange(values[..|values| - 1]);
  }

  lemma {:induction false} HeadBelow(values: seq<int>)
    requires |values| <= 3 && forall i :: 0 <= i < |values| ==> values[i] <= 255
    ensures Head(values) <= 0x1_0000_0000 - (if values == [] then 0x1_0000_0000 else Placed(1, |values| - 1))
  {
    if values != [] {
      HeadBelow(values[..|values| - 1]);
    }
  }

  /** Whatever the host name, signs and underscores included, an accepted IPv4 address has 32 bits. */
  lemma AcceptedIsInRange(h: Host, hostname: string)
    ensures Parsed(h, hostname).V4? ==> 0 <= Parsed(h, hostname).value < 0x1_0000_0000
  {
    var candidate := Strip(hostname);
    if StrictQuad(WithoutZone(candidate)).Some? {
      StrictIsMixedRadix(WithoutZone(candidate));
      MixedRadixRange(OctetValues(Split([], WithoutZone(candidate), '.')));
    } else if Numeric(h, candidate).V4? {
      var parts := Split([], TrimDots(candidate), '.');
      PartValuesLength(Reader(h), parts);
      var values := PartValues(Reader(h), parts).value;
      HeadBelow(values[..|values| - 1]);
    }
  }

  /** A digit spelling is read as its mixed-radix value when its parts are in range, and rejected otherwise. */
  lemma SpellingIsRead(h: Host, spelling: seq<Spelling>)
    requires HostOk(h) && 1 <= |spelling| <= 4 && forall i :: 0 <= i < |spelling| ==> WellSpelled(spelling[i])
    ensures Parsed(h, HostText(spelling))
         == if InRange(Values(spelling)) then V4(MixedRadix(Values(spelling))) else NoAddress
    ensures InRange(Values(spelling)) ==> 0 <= MixedRadix(Values(spelling)) < 0x1_0000_0000
  {
    var s := HostText(spelling);
    HostTextIsClean(h, spelling);
    PartsAreRead(h, spelling);
    var values := Values(spelling);
    if InRange(values) {
      MixedRadixRange(values);
    }
    assert Numeric(h, s) == if InRange(values) then V4(MixedRadix(values)) else NoAddress;
    if StrictQuad(s).Some? {
      StrictAgrees(h, s);
    }
  }

  predicate AreBytes(a: seq<int>) {
    forall i :: 0 <= i < |a| ==> 0 <= a[i] <= 255
  }

  lemma {:induction false} HeadInjective(a: seq<int>, b: seq<int>, x: int, y: int)
    requires |a| == |b| <= 3 && AreBytes(a) && AreBytes(b)
    requires 0 <= x < LastLimit(|a| + 1) && 0 <= y < LastLimit(|a| + 1) && Head(a) + x == Head(b) + y
    ensures a == b && x == y
  {
    if a != [] {
      var n := |a| - 1;
      HeadInjective(a[..n], b[..n], Placed(a[n], n) + x, Placed(b[n], n) + y);
    }
  }

  /** With the number of parts fixed, different part values spell different addresses. */
  lemma DistinctValuesDistinctAddresses(v: seq<int>, w: seq<int>)
    requires 1 <= |v| == |w| <= 4 && InRange(v) && InRange(w)
    requires (forall i :: 0 <= i < |v| ==> 0 <= v[i] && 0 <= w[i]) && MixedRadix(v) == MixedRadix(w)
    ensures v == w
  {
    var n := |v| - 1;
    HeadInjective(v[..n], w[..n], v[n], w[n]);
    assert v == v[..n] + [v[n]] && w == w[..n] + [w[n]];
  }

  function Radixed(v: nat, r: Radix): Spelling {
    Spelling(r, Digits(v, r))
  }

  /** The parts of an address, printed in the given radices. */
  function Spelled(address: nat, radices: seq<Radix>): seq<Spelling>
    requires address < 0x1_0000_0000 && 1 <= |radices| <= 4
  {
    match |radices|
    case 1 => [Radixed(address, radices[0])]
    case 2 => [Radixed(address / 0x100_0000, radices[0]), Radixed(address % 0x100_0000, radices[1])]
    case 3 => [Radixed(address / 0x100_0000, radices[0]), Radixed(address / 0x1_0000 % 0x100, radices[1]),
               Radixed(address % 0x1_0000, radices[2])]
    case _ => [Radixed(address / 0x100_0000, radices[0]), Radixed(address / 0x1_0000 % 0x100, radices[1]),
               Radixed(address / 0x100 % 0x100, radices[2]), Radixed(address % 0x100, radices[3])]
  }

  lemma RadixedIsWellSpelled(v: nat, r: Radix)
    ensures WellSpelled(Radixed(v, r)) && PartValue(Radixed(v, r)) == v
  {
    DigitsRoundTrip(v, r);
  }

  /** Any 32-bit address printed in one to four parts, each in any radix, is read back. */
  lemma RoundTrip(h: Host, address: nat, radices: seq<Radix>)
    requires HostOk(h) && address < 0x1_0000_0000 && 1 <= |radices| <= 4
    ensures Parsed(h, HostText(Spelled(address, radices))) == V4(address)
  {
    var spelling := Spelled(address, radices);
    SpelledValues(address, radices);
    BytesSpellAddress(address, |radices|);
    SpellingIsRead(h, spelling);
  }

  lemma RadixedValues(v: nat, r: Radix, spelling: Spelling)
    requires spelling == Radixed(v, r)
    ensures WellSpelled(spelling) && PartValue(spelling) == v
  {
    RadixedIsWellSpelled(v, r);
  }

  /** The values of the parts of a printed address. */
  function Bytes(address: nat, n: nat): seq<int>
    requires 1 <= n <= 4
  {
    match n
    case 1 => [address]
    case 2 => [address / 0x100_0000, address % 0x100_0000]
    case 3 => [address / 0x100_0000, address / 0x1_0000 % 0x100, address % 0x1_0000]
    case _ => [address / 0x100_0000, address / 0x1_0000 % 0x100, address / 0x100 % 0x100, address % 0x100]
  }

  lemma BytesSpellAddress(address: nat, n: nat)
    requires address < 0x1_0000_0000 && 1 <= n <= 4
    ensures InRange(Bytes(address, n)) && MixedRadix(Bytes(address, n)) == address
  {
    var v := Bytes(address, n);
    match n {
      case 1 =>
        assert v[..0] == [];
      case 2 =>
        assert v[..1][..0] == [];
        assert Head(v[..1]) == v[0] * 0x100_0000;
      case 3 =>
        assert v[..2][..1] == v[..1] && v[..1][..0] == [];
        assert Head(v[..1]) == v[0] * 0x100_0000;
        assert Head(v[..2]) == Head(v[..1]) + v[1] * 0x1_0000;
      case _ =>
        MixedRadixOfFour(v[0], v[1], v[2], v[3]);
        FourBytes(address);
    }
  }

  lemma FourBytes(address: nat)
    ensures address / 0x100_0000 * 0x100_0000 + address / 0x1_0000 % 0x100 * 0x1_0000 + address / 0x100 % 0x100 * 0x100
            + address % 0x100 == address
  {
    var upper := address / 0x100;
    assert address / 0x1_0000 == upper / 0x100 && address / 0x100_0000 == upper / 0x100 / 0x100;
  }

  lemma SpelledValues(address: nat, radices: seq<Radix>)
    requires address < 0x1_0000_0000 && 1 <= |radices| <= 4
    ensures |Spelled(address, radices)| == |radices|
    ensures forall i :: 0 <= i < |radices| ==> WellSpelled(Spelled(address, radices)[i])
    ensures Values(Spelled(address, radices)) == Bytes(address, |radices|)
  {
    var spelling, v := Spelled(address, radices), Bytes(address, |radices|);
    forall i | 0 <= i < |radices| ensures WellSpelled(spelling[i]) && PartValue(spelling[i]) == v[i] {
      RadixedValues(v[i], radices[i], spelling[i]);
    }
  }

  // ---------------------------------------------------------------------
  // What else the loop accepts
  // ---------------------------------------------------------------------

  lemma NegatedDigits(digits: string, base: Radix)
    requires digits != [] && AllDigits(digits, base)
    ensures PyInt("-" + digits, base) == Some(-(Value(digits, base) as int))
  {
    var t := "-" + digits;
    DigitsAreGrouped(digits, base);
    assert t[|t| - 1] == digits[|digits| - 1] && t[1..] == digits;
    StripTight(t);
    PyIntFrom(t, digits, base);
  }

  /** A host of a single part. */
  lemma SinglePart(h: Host, s: string)
    requires s != [] && Free(s, '.') && Free(s, '%') && !IsSpace(s[0]) && !IsSpace(s[|s| - 1]) && h.ipv6(s).None?
    ensures Parsed(h, s) == Numeric(h, s) && TrimDots(s) == s && Split([], s, '.') == [s]
  {
    SplitWord([], s, '%');
    SplitWord([], s, '.');
    assert [] + s == s;
    StripTight(s);
  }

  lemma OneValue(read: string -> Option<int>, s: string, v: int)
    requires read(s) == Some(v)
    ensures PartValues(read, [s]) == Some([v]) && MixedRadix([v]) == v
  {
    var parts: seq<string>, values: seq<int> := [s], [v];
    PartsAreValues(read, parts, values);
    assert values[..0] == [];
  }

  /** A part that starts with a zero is read in octal, whatever follows. */
  lemma AfterZeroIsOctal(h: Host, part: string, rest: string)
    requires part == "0" + rest && rest != [] && rest[0] != 'x' && h.fold(part) == part
    ensures Reader(h)(part) == PyInt(rest, Octal)
  {
    assert part[1..] == rest;
    assert PartDigits(part) == Some((rest, Octal));
  }

  lemma NegativeRaises(h: Host, s: string, v: int)
    requires Reader(h)(s) == Some(v) && v < 0 && TrimDots(s) == s && Split([], s, '.') == [s]
    ensures Numeric(h, s) == Raises
  {
    OneValue(Reader(h), s, v);
    NumericFrom(h, s, [v]);
  }

  lemma OctalHasNoMarks(digits: string)
    requires digits != [] && AllDigits(digits, Octal)
    ensures var s := "0-" + digits; Free(s, '.') && Free(s, '%') && !IsSpace(s[0]) && !IsSpace(s[|s| - 1])
  {
    var s := "0-" + digits;
    forall i | 0 <= i < |s| ensures s[i] != '.' && s[i] != '%' && !IsSpace(s[i]) {
      if i >= 2 {
        assert s[i] == digits[i - 2] && IsDigit(digits[i - 2], Octal);
      }
    }
  }

  lemma SignedPartIsRead(h: Host, s: string, digits: string)
    requires digits != [] && AllDigits(digits, Octal) && s == "0-" + digits && h.fold(s) == s
    ensures Reader(h)(s) == Some(-(Value(digits, Octal) as int))
  {
    var signed := "-" + digits;
    assert s == "0" + signed && signed[0] == '-';
    AfterZeroIsOctal(h, s, signed);
    var read := Reader(h)(s);
    assert read == PyInt(signed, Octal);
    NegatedDigits(digits, Octal);
  }

  /** `int` takes a sign, so a part after a leading zero can be negative, and then the constructor raises. */
  lemma SignedPartRaises(h: Host, s: string, digits: string)
    requires digits != [] && AllDigits(digits, Octal) && Value(digits, Octal) > 0
    requires s == "0-" + digits && h.fold(s) == s && h.ipv6(s).None?
    ensures Parsed(h, s) == Raises
  {
    OctalHasNoMarks(digits);
    SinglePart(h, s);
    SignedPartIsRead(h, s, digits);
    NegativeRaises(h, s, -(Value(digits, Octal) as int));
  }

  // ---------------------------------------------------------------------
  // When the parser raises
  // ---------------------------------------------------------------------

  ghost predicate Reads(read: string -> Option<int>, parts: seq<string>, values: seq<int>) {
    |values| == |parts| && forall i :: 0 <= i < |parts| ==> read(parts[i]) == Some(values[i])
  }

  lemma {:induction false} PartValuesAreRead(read: string -> Option<int>, parts: seq<string>)
    requires PartValues(read, parts).Some?
    ensures Reads(read, parts, PartValues(read, parts).value)
  {
    if parts != [] {
      PartValuesAreRead(read, parts[..|parts| - 1]);
    }
  }

  /** All parts read and in range, and a sum below zero. */
  ghost predicate NegativeReading(read: string -> Option<int>, parts: seq<string>, values: seq<int>) {
    1 <= |values| <= 4 && Reads(read, parts, values) && InRange(values) && MixedRadix(values) < 0
  }

  /** The parts, one to four of them, are a legacy spelling of a negative number. */
  ghost predicate SpellsNegative(read: string -> Option<int>, parts: seq<string>) {
    exists values :: NegativeReading(read, parts, values)
  }

  lemma SpellsNegativeIff(read: string -> Option<int>, parts: seq<string>)
    ensures SpellsNegative(read, parts)
            <==> PartValues(read, parts).Some? && NegativeReading(read, parts, PartValues(read, parts).value)
  {
    if SpellsNegative(read, parts) {
      var values :| NegativeReading(read, parts, values);
      PartsAreValues(read, parts, values);
    }
  }

  /** The parts of the legacy reading. */
  function LegacyParts(hostname: string): seq<string> {
    Split([], TrimDots(Strip(hostname)), '.')
  }

  predicate StrictlyRead(h: Host, hostname: string) {
    var text := WithoutZone(Strip(hostname));
    StrictQuad(text).Some? || h.ipv6(text).Some?
  }

  /** The parser raises exactly on a host name with no strict reading whose parts spell a negative number. */
  lemma RaisesIff(h: Host, hostname: string)
    ensures Parsed(h, hostname) == Raises
            <==> !StrictlyRead(h, hostname) && SpellsNegative(Reader(h), LegacyParts(hostname))
  {
    NumericRaisesIff(h, Strip(hostname));
  }

  lemma NumericRaisesIff(h: Host, candidate: string)
    ensures Numeric(h, candidate) == Raises <==> SpellsNegative(Reader(h), Split([], TrimDots(candidate), '.'))
  {
    var parts := Split([], TrimDots(candidate), '.');
    SpellsNegativeIff(Reader(h), parts);
    PartValuesLength(Reader(h), parts);
    if PartValues(Reader(h), parts).Some? {
      PartValuesAreRead(Reader(h), parts);
    }
  }

  lemma {:induction false} LStripMembers(s: string)
    ensures forall c :: c in LStrip(s) ==> c in s
  {
    if s != [] && IsSpace(s[0]) {
      LStripMembers(s[1..]);
    }
  }

  lemma StripMembers(s: string)
    ensures forall c :: c in Strip(s) ==> c in s
  {
    LStripMembers(RStrip(s));
    RStripIsPrefix(s);
  }

  /** `int` gives a negative number only for a text with a minus sign. */
  lemma NegativeHasMinus(s: string, base: Radix)
    requires PyInt(s, base).Some? && PyInt(s, base).value < 0
    ensures '-' in s
  {
    StripMembers(s);
    assert Strip(s)[0] == '-';
  }

  /** A part with a negative value starts with a zero and holds a minus sign once folded. */
  lemma NegativePart(h: Host, part: string)
    requires PartOf(h, part).Some? && PartOf(h, part).value < 0
    ensures var n := h.fold(part); |n| > 1 && n[0] == '0' && '-' in n
  {
    var n := h.fold(part);
    var digits, base := PartDigits(n).value.0, PartDigits(n).value.1;
    NegativeHasMinus(digits, base);
    if base == Decimal {
      PyIntOfDigits(n, Decimal);
    }
  }

  /** A host name none of whose folded parts starts with a zero and holds a minus sign never makes the parser raise. */
  lemma RaisesOnlyWithMinus(h: Host, hostname: string)
    requires forall part :: part in LegacyParts(hostname) ==>
      var n := h.fold(part); !(|n| > 1 && n[0] == '0' && '-' in n)
    ensures Parsed(h, hostname) != Raises
  {
    RaisesIff(h, hostname);
    var parts := LegacyParts(hostname);
    forall values | NegativeReading(Reader(h), parts, values) ensures false {
      forall i | 0 <= i < |parts| ensures values[i] >= 0 {
        assert parts[i] in parts && Reader(h)(parts[i]) == Some(values[i]);
        if values[i] < 0 {
          NegativePart(h, parts[i]);
        }
      }
      MixedRadixRange(values);
    }
  }
}
