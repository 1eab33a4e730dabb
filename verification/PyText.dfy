/** Python string operations the modelled code relies on. */
module PyText {

  /** `str.isspace`: the characters `strip` and `split` remove. */
  predicate IsSpace(c: char) {
    var n := c as int;
    || 0x09 <= n <= 0x0D || 0x1C <= n <= 0x20 || n == 0x85 || n == 0xA0 || n == 0x1680
    || 0x2000 <= n <= 0x200A || n == 0x2028 || n == 0x2029 || n == 0x202F || n == 0x205F || n == 0x3000
  }

  /** No character but white space: what `not s.strip()` tests. */
  predicate Blank(s: string) {
    forall i :: 0 <= i < |s| ==> IsSpace(s[i])
  }

  function RStrip(s: string): string {
    if s == [] then []
    else if IsSpace(s[|s| - 1]) then RStrip(s[..|s| - 1])
    else s
  }

  function LStrip(s: string): string {
    if s == [] then []
    else if IsSpace(s[0]) then LStrip(s[1..])
    else s
  }

  function Strip(s: string): string {
    LStrip(RStrip(s))
  }

  function Digit(d: nat): char
    requires d < 10
  {
    '0' + d as char
  }

  /** `str(n)`. */
  function Decimal(n: nat): string {
    if n < 10 then [Digit(n)] else Decimal(n / 10) + [Digit(n % 10)]
  }

  /** Python's `s[:n]`, which counts a negative `n` from the end. */
  function SliceTo(s: string, n: int): string {
    if n >= 0 then (if n <= |s| then s[..n] else s)
    else if |s| + n >= 0 then s[..|s| + n]
    else []
  }

  /** `s.rsplit(" ", 1)[0]`: what stands before the last space, or all of `s`. */
  function BeforeLastSpace(s: string): string {
    if ' ' !in s then s
    else if s[|s| - 1] == ' ' then s[..|s| - 1]
    else BeforeLastSpace(s[..|s| - 1])
  }

  /** `_cap_text`: shortens at a word boundary and marks the cut with three dots. */
  function CapText(value: string, maxChars: int): string {
    if |value| <= maxChars then value
    else
      var kept := SliceTo(value, maxChars - 3);
      var shortened := RStrip(BeforeLastSpace(kept));
      (if shortened != [] then shortened else RStrip(kept)) + "..."
  }

  lemma {:induction false} RStripIsPrefix(s: string)
    ensures RStrip(s) <= s
  {
    if s != [] && IsSpace(s[|s| - 1]) {
      RStripIsPrefix(s[..|s| - 1]);
    }
  }

  lemma {:induction false} BeforeLastSpaceIsPrefix(s: string)
    ensures BeforeLastSpace(s) <= s
  {
    if ' ' in s && s[|s| - 1] != ' ' {
      BeforeLastSpaceIsPrefix(s[..|s| - 1]);
    }
  }

  /** The cap holds for every limit that leaves room for the dots. */
  lemma CapTextFits(value: string, maxChars: int)
    requires maxChars >= 3
    ensures |CapText(value, maxChars)| <= maxChars
  {
    if |value| > maxChars {
      var kept := SliceTo(value, maxChars - 3);
      BeforeLastSpaceIsPrefix(kept);
      RStripIsPrefix(BeforeLastSpace(kept));
      RStripIsPrefix(kept);
    }
  }

  lemma {:induction false} BeforeLastSpaceOf(head: string, word: string)
    requires ' ' !in word
    ensures BeforeLastSpace(head + " " + word) == head
  {
    var s := head + " " + word;
    assert s[|head|] == ' ';
    if word == [] {
      assert s[..|s| - 1] == head;
    } else {
      var w := word[..|word| - 1];
      assert s[..|s| - 1] == head + " " + w;
      assert s[|s| - 1] == word[|word| - 1];
      BeforeLastSpaceOf(head, w);
    }
  }

  lemma {:induction false} LStripKeepsEnd(head: string, tail: string)
    requires tail != [] && !IsSpace(tail[0])
    ensures exists x: string :: LStrip(head + tail) == x + tail
  {
    if head == [] {
      assert head + tail == tail == [] + tail;
    } else {
      assert (head + tail)[1..] == head[1..] + tail;
      if IsSpace(head[0]) {
        LStripKeepsEnd(head[1..], tail);
      }
    }
  }

  /** A text without outer white space is left alone. */
  lemma StripTight(s: string)
    requires s != [] && !IsSpace(s[0]) && !IsSpace(s[|s| - 1])
    ensures Strip(s) == s
  {
  }

  /** Stripping leaves a final stretch that neither starts nor ends with white space in place. */
  lemma StripKeepsEnd(head: string, tail: string)
    requires tail != [] && !IsSpace(tail[0]) && !IsSpace(tail[|tail| - 1])
    ensures exists x: string :: Strip(head + tail) == x + tail
  {
    var s := head + tail;
    assert s[|s| - 1] == tail[|tail| - 1];
    assert RStrip(s) == s;
    LStripKeepsEnd(head, tail);
  }
}
