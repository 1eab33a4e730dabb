/** Splitting a reply into messages of bounded length without losing or reordering what it says. */
module MessageChunks {
  import opened PyText

  // ---------------------------------------------------------------------
  // What a text says
  // ---------------------------------------------------------------------

  /** The characters that are not white space, in order. */
  function Ink(s: string): string {
    if s == [] then [] else Ink(s[..|s| - 1]) + if IsSpace(s[|s| - 1]) then [] else [s[|s| - 1]]
  }

  function InkOfAll(parts: seq<string>): string {
    if parts == [] then [] else InkOfAll(parts[..|parts| - 1]) + Ink(parts[|parts| - 1])
  }

  lemma {:induction false} InkConcat(a: string, b: string)
    ensures Ink(a + b) == Ink(a) + Ink(b)
  {
    if b == [] {
      assert a + b == a;
    } else {
      assert (a + b)[..|a + b| - 1] == a + b[..|b| - 1];
      InkConcat(a, b[..|b| - 1]);
    }
  }

  lemma InkOfAllAppend(parts: seq<string>, part: string)
    ensures InkOfAll(parts + [part]) == InkOfAll(parts) + Ink(part)
  {
    assert (parts + [part])[..|parts|] == parts;
  }

  lemma {:induction false} InkOfAllConcat(a: seq<string>, b: seq<string>)
    ensures InkOfAll(a + b) == InkOfAll(a) + InkOfAll(b)
  {
    if b == [] {
      assert a + b == a;
    } else {
      var front, last := b[..|b| - 1], b[|b| - 1];
      assert a + b == a + front + [last];
      InkOfAllAppend(a + front, last);
      InkOfAllConcat(a, front);
      Regroup(InkOfAll(a), InkOfAll(front), Ink(last));
    }
  }

  lemma {:induction false} BlankHasNoInk(s: string)
    ensures Blank(s) <==> Ink(s) == []
  {
    if s != [] {
      BlankHasNoInk(s[..|s| - 1]);
      assert s == s[..|s| - 1] + [s[|s| - 1]];
    }
  }

  lemma InkOfOne(c: char)
    ensures Ink([c]) == if IsSpace(c) then [] else [c]
  {
    assert [c][..0] == [];
    assert Ink([]) == [];
  }

  lemma {:induction false} RStripKeepsInk(s: string)
    ensures Ink(RStrip(s)) == Ink(s)
  {
    if s != [] && IsSpace(s[|s| - 1]) {
      RStripKeepsInk(s[..|s| - 1]);
    }
  }

  lemma {:induction false} LStripKeepsInk(s: string)
    ensures Ink(LStrip(s)) == Ink(s)
  {
    if s != [] && IsSpace(s[0]) {
      LStripKeepsInk(s[1..]);
      InkConcat([s[0]], s[1..]);
      InkOfOne(s[0]);
      assert [s[0]] + s[1..] == s;
    }
  }

  lemma StripKeepsInk(s: string)
    ensures Ink(Strip(s)) == Ink(s)
  {
    RStripKeepsInk(s);
    LStripKeepsInk(RStrip(s));
  }

  // ---------------------------------------------------------------------
  // Python's split("\n\n") and splitlines()
  // ---------------------------------------------------------------------

  /** `(head + s).split("\n\n")`, where `head` is known to hold no break. */
  function SplitBlocks(head: string, s: string): seq<string>
    decreases |s|
  {
    if |s| < 2 then [head + s]
    else if s[0] == '\n' && s[1] == '\n' then [head] + SplitBlocks([], s[2..])
    else SplitBlocks(head + [s[0]], s[1..])
  }

  predicate IsLineBreak(c: char) {
    var n := c as int;
    0x0A <= n <= 0x0D || 0x1C <= n <= 0x1E || n == 0x85 || n == 0x2028 || n == 0x2029
  }

  /** `(head + s).splitlines()`: a carriage return and a line feed are one break; nothing follows a final break. */
  function SplitLines(head: string, s: string): seq<string>
    decreases |s|
  {
    if s == [] then (if head == [] then [] else [head])
    else if |s| >= 2 && s[0] == '\r' && s[1] == '\n' then [head] + SplitLines([], s[2..])
    else if IsLineBreak(s[0]) then [head] + SplitLines([], s[1..])
    else SplitLines(head + [s[0]], s[1..])
  }

  lemma Regroup(a: string, b: string, c: string)
    ensures a + (b + c) == (a + b) + c
  {
  }

  lemma MoveToHead(head: string, s: string)
    requires s != []
    ensures head + [s[0]] + s[1..] == head + s
  {
    Regroup(head, [s[0]], s[1..]);
    assert [s[0]] + s[1..] == s;
  }

  /** `"\n\n".join(blocks)`. */
  function JoinBlocks(blocks: seq<string>): string {
    if blocks == [] then []
    else if |blocks| == 1 then blocks[0]
    else blocks[0] + "\n\n" + JoinBlocks(blocks[1..])
  }

  /** Joining the blocks gives the text back. */
  lemma {:induction false} BlocksRoundTrip(head: string, s: string)
    ensures SplitBlocks(head, s) != [] && JoinBlocks(SplitBlocks(head, s)) == head + s
    decreases |s|
  {
    if |s| >= 2 && s[0] == '\n' && s[1] == '\n' {
      BlocksRoundTrip([], s[2..]);
      var rest := SplitBlocks([], s[2..]);
      assert ([head] + rest)[1..] == rest;
      assert [] + s[2..] == s[2..];
      assert s == "\n\n" + s[2..];
      Regroup(head, "\n\n", s[2..]);
    } else if |s| >= 2 {
      BlocksRoundTrip(head + [s[0]], s[1..]);
      MoveToHead(head, s);
    }
  }

  predicate NoBreak(line: string) {
    forall i :: 0 <= i < |line| ==> !IsLineBreak(line[i])
  }

  /** No line holds a line break. */
  lemma {:induction false} LinesHaveNoBreak(head: string, s: string)
    requires NoBreak(head)
    ensures forall k :: 0 <= k < |SplitLines(head, s)| ==> NoBreak(SplitLines(head, s)[k])
    decreases |s|
  {
    if s != [] {
      if |s| >= 2 && s[0] == '\r' && s[1] == '\n' {
        LinesHaveNoBreak([], s[2..]);
      } else if IsLineBreak(s[0]) {
        LinesHaveNoBreak([], s[1..]);
      } else {
        LinesHaveNoBreak(head + [s[0]], s[1..]);
      }
    }
  }

  lemma InkSkipsSpace(s: string, n: nat)
    requires n <= |s| && Blank(s[..n])
    ensures Ink(s[n..]) == Ink(s)
  {
    var space, rest := s[..n], s[n..];
    assert s == space + rest;
    InkConcat(space, rest);
    BlankHasNoInk(space);
  }

  lemma InkAfterBreak(head: string, s: string, n: nat)
    requires n <= |s| && Blank(s[..n])
    ensures Ink(head) + Ink([] + s[n..]) == Ink(head + s)
  {
    assert [] + s[n..] == s[n..];
    InkConcat(head, s);
    InkSkipsSpace(s, n);
  }

  lemma InkOfSingle(s: string)
    ensures InkOfAll([s]) == Ink(s)
  {
    assert [s][..0] == [];
    assert InkOfAll([s]) == InkOfAll([]) + Ink(s);
  }

  lemma InkOfHeadAndRest(head: string, rest: seq<string>)
    ensures InkOfAll([head] + rest) == Ink(head) + InkOfAll(rest)
  {
    InkOfAllConcat([head], rest);
    InkOfSingle(head);
  }

  lemma {:induction false} SplitBlocksKeepsInk(head: string, s: string)
    ensures InkOfAll(SplitBlocks(head, s)) == Ink(head + s)
    decreases |s|
  {
    if |s| < 2 {
      InkOfSingle(head + s);
    } else if s[0] == '\n' && s[1] == '\n' {
      SplitBlocksKeepsInk([], s[2..]);
      InkAfterBreak(head, s, 2);
      InkOfHeadAndRest(head, SplitBlocks([], s[2..]));
    } else {
      SplitBlocksKeepsInk(head + [s[0]], s[1..]);
      MoveToHead(head, s);
    }
  }

  lemma BreaksAreSpace(s: string)
    requires s != [] && (IsLineBreak(s[0]) || s[0] == '\n')
    ensures Blank(s[..1]) && (|s| >= 2 && s[1] == '\n' ==> Blank(s[..2]))
  {
  }

  lemma {:induction false} SplitLinesKeepsInk(head: string, s: string)
    ensures InkOfAll(SplitLines(head, s)) == Ink(head + s)
    decreases |s|
  {
    if s == [] {
      NothingAdded(head);
      InkOfSingle(head);
    } else if |s| >= 2 && s[0] == '\r' && s[1] == '\n' {
      BreaksAreSpace(s);
      SplitLinesKeepsInk([], s[2..]);
      InkAfterBreak(head, s, 2);
      InkOfHeadAndRest(head, SplitLines([], s[2..]));
    } else if IsLineBreak(s[0]) {
      BreaksAreSpace(s);
      SplitLinesKeepsInk([], s[1..]);
      InkAfterBreak(head, s, 1);
      InkOfHeadAndRest(head, SplitLines([], s[1..]));
    } else {
      SplitLinesKeepsInk(head + [s[0]], s[1..]);
      MoveToHead(head, s);
    }
  }

  // ---------------------------------------------------------------------
  // Chunks
  // ---------------------------------------------------------------------

  predicate Sized(chunks: seq<string>, limit: int) {
    forall i :: 0 <= i < |chunks| ==> 1 <= |chunks[i]| <= limit
  }

  /** `piece` stands in `chunk` without a break. */
  ghost predicate Within(piece: string, chunk: string) {
    exists before: string, after: string :: chunk == before + piece + after
  }

  ghost predicate WithinSome(piece: string, chunks: seq<string>) {
    exists i :: 0 <= i < |chunks| && Within(piece, chunks[i])
  }

  /** The finished chunks fit, and together with the open one they say `ink`. */
  ghost predicate Says(chunks: seq<string>, current: string, limit: int, ink: string) {
    Sized(chunks, limit) && |current| <= limit && InkOfAll(chunks) + Ink(current) == ink
  }

  function Joined(current: string, gap: string, piece: string): string {
    if current == "" then piece else current + gap + piece
  }

  function Flushed(chunks: seq<string>, current: string): seq<string> {
    if current == "" then chunks else chunks + [current]
  }

  lemma NothingAdded(a: string)
    ensures a + [] == a
  {
  }

  lemma NoInk()
    ensures Ink("") == []
  {
  }

  lemma InkOfJoined(current: string, gap: string, piece: string)
    requires Blank(gap)
    ensures Ink(Joined(current, gap, piece)) == Ink(current) + Ink(piece)
  {
    InkConcat(current + gap, piece);
    InkConcat(current, gap);
    BlankHasNoInk(gap);
  }

  lemma SaysJoined(chunks: seq<string>, current: string, limit: int, ink: string, gap: string, piece: string)
    requires Says(chunks, current, limit, ink) && Blank(gap) && |Joined(current, gap, piece)| <= limit
    ensures Says(chunks, Joined(current, gap, piece), limit, ink + Ink(piece))
  {
    InkOfJoined(current, gap, piece);
    Regroup(InkOfAll(chunks), Ink(current), Ink(piece));
  }

  lemma SaysFlushed(chunks: seq<string>, current: string, limit: int, ink: string)
    requires Says(chunks, current, limit, ink) && limit >= 0
    ensures Says(Flushed(chunks, current), "", limit, ink)
  {
    InkOfAllAppend(chunks, current);
    NoInk();
    NothingAdded(ink);
    NothingAdded(InkOfAll(chunks));
  }

  lemma SaysCut(chunks: seq<string>, limit: int, ink: string, cut: seq<string>, rest: string, piece: string)
    requires Says(chunks, "", limit, ink) && Says(cut, rest, limit, Ink(piece))
    ensures Says(chunks + cut, rest, limit, ink + Ink(piece))
  {
    InkOfAllConcat(chunks, cut);
    NoInk();
    NothingAdded(InkOfAll(chunks));
    Regroup(ink, InkOfAll(cut), Ink(rest));
  }

  lemma CutStep(chunks: seq<string>, rest: string, limit: int, ink: string)
    requires Sized(chunks, limit) && InkOfAll(chunks) + Ink(rest) == ink && 1 <= limit < |rest|
    ensures Sized(chunks + [rest[..limit]], limit) && InkOfAll(chunks + [rest[..limit]]) + Ink(rest[limit..]) == ink
  {
    InkConcat(rest[..limit], rest[limit..]);
    assert rest[..limit] + rest[limit..] == rest;
    InkOfAllAppend(chunks, rest[..limit]);
    Regroup(InkOfAll(chunks), Ink(rest[..limit]), Ink(rest[limit..]));
  }

  /** The inner loop of `_split_large_block`: full pieces are cut off while the line is too long. */
  method CutLine(line: string, limit: int) returns (chunks: seq<string>, rest: string)
    requires limit >= 1
    ensures Says(chunks, rest, limit, Ink(line))
  {
    chunks, rest := [], line;
    while |rest| > limit
      invariant Sized(chunks, limit) && InkOfAll(chunks) + Ink(rest) == Ink(line)
      decreases |rest|
    {
      CutStep(chunks, rest, limit, Ink(line));
      chunks := chunks + [rest[..limit]];
      rest := rest[limit..];
    }
  }

  /** The turn of the loop of `_split_large_block` for one line. */
  method AddLine(line: string, limit: int, chunks0: seq<string>, current0: string, ghost ink: string)
    returns (chunks: seq<string>, current: string)
    requires limit >= 1 && Says(chunks0, current0, limit, ink)
    ensures Says(chunks, current, limit, ink + Ink(line))
  {
    chunks, current := chunks0, current0;
    var piece := if current == "" then line else current + "\n" + line;
    if |piece| <= limit {
      SaysJoined(chunks, current, limit, ink, "\n", line);
      return chunks, piece;
    }
    SaysFlushed(chunks, current, limit, ink);
    if current != "" {
      chunks := chunks + [current];
    }
    var cut, rest := CutLine(line, limit);
    SaysCut(chunks, limit, ink, cut, rest, line);
    chunks, current := chunks + cut, rest;
  }

  /** `_split_large_block`. */
  method SplitLargeBlock(text: string, limit: int) returns (chunks: seq<string>)
    requires limit >= 1
    ensures !Blank(text) ==> chunks != [] && Sized(chunks, limit) && InkOfAll(chunks) == Ink(text)
    ensures chunks != []
  {
    var lines := SplitLines([], text);
    chunks := [];
    var current, n := "", 0;
    while n < |lines|
      invariant 0 <= n <= |lines| && Says(chunks, current, limit, InkOfAll(lines[..n]))
    {
      assert lines[..n + 1] == lines[..n] + [lines[n]];
      InkOfAllAppend(lines[..n], lines[n]);
      chunks, current := AddLine(lines[n], limit, chunks, current, InkOfAll(lines[..n]));
      n := n + 1;
    }
    assert lines[..n] == lines;
    SplitLinesKeepsInk([], text);
    assert [] + text == text;
    SaysFlushed(chunks, current, limit, Ink(text));
    if current != "" {
      chunks := chunks + [current];
    }
    NothingSaidIsBlank(chunks, limit, text);
    if chunks == [] {
      chunks := [SliceTo(text, limit)];
    }
  }

  lemma NothingSaidIsBlank(chunks: seq<string>, limit: int, text: string)
    requires Says(chunks, "", limit, Ink(text))
    ensures InkOfAll(chunks) == Ink(text) && (chunks == [] ==> Blank(text))
  {
    assert Ink("") == [];
    BlankHasNoInk(text);
  }

  /** The non-empty stripped blocks of a text, in order. */
  function Pieces(blocks: seq<string>): seq<string> {
    if blocks == [] then []
    else
      var front, piece := Pieces(blocks[..|blocks| - 1]), Strip(blocks[|blocks| - 1]);
      if piece == [] then front else front + [piece]
  }

  lemma {:induction false} PiecesKeepInk(blocks: seq<string>)
    ensures InkOfAll(Pieces(blocks)) == InkOfAll(blocks)
  {
    if blocks != [] {
      var front, last := blocks[..|blocks| - 1], blocks[|blocks| - 1];
      PiecesKeepInk(front);
      StripKeepsInk(last);
      InkOfAllAppend(Pieces(front), Strip(last));
      assert Strip(last) == [] ==> Ink(Strip(last)) == [];
    }
  }

  lemma {:induction false} StripIsTight(s: string)
    ensures Strip(s) == [] <==> Blank(s)
  {
    StripKeepsInk(s);
    BlankHasNoInk(s);
    BlankHasNoInk(Strip(s));
    LStripIsTight(RStrip(s));
  }

  lemma {:induction false} LStripIsTight(s: string)
    ensures LStrip(s) == [] || !IsSpace(LStrip(s)[0])
  {
    if s != [] && IsSpace(s[0]) {
      LStripIsTight(s[1..]);
    }
  }

  lemma {:induction false} PiecesNotBlank(blocks: seq<string>)
    ensures forall i :: 0 <= i < |Pieces(blocks)| ==> Pieces(blocks)[i] != [] && !Blank(Pieces(blocks)[i])
  {
    if blocks != [] {
      PiecesNotBlank(blocks[..|blocks| - 1]);
      StripIsTight(blocks[|blocks| - 1]);
      StripKeepsInk(blocks[|blocks| - 1]);
      BlankHasNoInk(blocks[|blocks| - 1]);
      BlankHasNoInk(Strip(blocks[|blocks| - 1]));
    }
  }

  /** The pieces so far that fit are whole inside a chunk or inside `current`. */
  ghost predicate Intact(pieces: seq<string>, limit: int, chunks: seq<string>, current: string) {
    forall i :: 0 <= i < |pieces| && |pieces[i]| <= limit ==>
      WithinSome(pieces[i], chunks) || Within(pieces[i], current)
  }

  lemma WithinMore(piece: string, chunks: seq<string>, more: seq<string>)
    requires WithinSome(piece, chunks)
    ensures WithinSome(piece, chunks + more)
  {
    var i :| 0 <= i < |chunks| && Within(piece, chunks[i]);
    assert (chunks + more)[i] == chunks[i];
  }

  lemma WithinJoined(piece: string, a: string, b: string)
    requires Within(piece, a) || Within(piece, b)
    ensures Within(piece, a + b)
  {
    if Within(piece, a) {
      var before, after :| a == before + piece + after;
      assert a + b == before + piece + (after + b);
    } else {
      var before, after :| b == before + piece + after;
      assert a + b == (a + before) + piece + after;
    }
  }

  lemma WholeIsWithin(piece: string)
    ensures Within(piece, piece)
  {
    assert piece == [] + piece + [];
  }

  /** `current` grows by a piece. */
  lemma IntactJoined(pieces: seq<string>, limit: int, chunks: seq<string>, current: string, piece: string)
    requires Intact(pieces, limit, chunks, current)
    ensures Intact(pieces + [piece], limit, chunks, Joined(current, "\n\n", piece))
  {
    var joined := Joined(current, "\n\n", piece);
    WholeIsWithin(piece);
    WithinJoined(piece, current + "\n\n", piece);
    forall i | 0 <= i < |pieces| && |pieces[i]| <= limit
      ensures WithinSome(pieces[i], chunks) || Within(pieces[i], joined) {
      if Within(pieces[i], current) {
        WithinJoined(pieces[i], current, "\n\n");
        WithinJoined(pieces[i], current + "\n\n", piece);
        assert current == "" ==> pieces[i] == "" && piece == "" + pieces[i] + piece;
      }
    }
  }

  /** `current` is flushed. */
  lemma IntactFlushed(pieces: seq<string>, limit: int, chunks: seq<string>, current: string)
    requires Intact(pieces, limit, chunks, current) && forall i :: 0 <= i < |pieces| ==> pieces[i] != []
    ensures Intact(pieces, limit, Flushed(chunks, current), "")
  {
    forall i | 0 <= i < |pieces| && |pieces[i]| <= limit
      ensures WithinSome(pieces[i], Flushed(chunks, current))
    {
      NotWithinEmpty(pieces[i]);
      if WithinSome(pieces[i], chunks) {
        WithinMore(pieces[i], chunks, [current]);
      } else {
        assert Flushed(chunks, current)[|chunks|] == current;
      }
    }
  }

  /** Chunks of a block that is too long are added. */
  lemma IntactSplit(pieces: seq<string>, limit: int, chunks: seq<string>, piece: string, more: seq<string>,
                    current: string)
    requires Intact(pieces, limit, chunks, "") && |piece| > limit && forall i :: 0 <= i < |pieces| ==> pieces[i] != []
    ensures Intact(pieces + [piece], limit, chunks + more, current)
  {
    forall i | 0 <= i < |pieces| && |pieces[i]| <= limit ensures WithinSome(pieces[i], chunks + more) {
      NotWithinEmpty(pieces[i]);
      WithinMore(pieces[i], chunks, more);
    }
  }

  lemma NotWithinEmpty(piece: string)
    requires piece != []
    ensures !Within(piece, "")
  {
    forall before: string, after: string ensures "" != before + piece + after {
      assert |before + piece + after| > 0;
    }
  }

  /**
    `split_message_chunks`. For a text that is not blank every chunk is non-empty and fits, the chunks say what the text
    says, and each block that fits stands whole in one chunk.
   */
  method SplitMessageChunks(text: string, limit: int) returns (chunks: seq<string>)
    requires limit >= 1
    ensures Blank(text) ==> chunks == [""]
    ensures !Blank(text) ==> chunks != [] && Sized(chunks, limit) && InkOfAll(chunks) == Ink(text)
    ensures !Blank(text) ==> forall p :: p in Pieces(SplitBlocks([], Strip(text))) && |p| <= limit ==>
      WithinSome(p, chunks)
  {
    var cleaned := Strip(text);
    StripIsTight(text);
    StripKeepsInk(text);
    BlankHasNoInk(text);
    if cleaned == "" {
      return [""];
    }
    var blocks := SplitBlocks([], cleaned);
    SplitBlocksKeepsInk([], cleaned);
    assert [] + cleaned == cleaned;
    PiecesKeepInk(blocks);
    PiecesNotBlank(blocks);
    chunks := SplitPieces(blocks, limit);
    NothingSaidIsBlank(chunks, limit, cleaned);
    BlankHasNoInk(cleaned);
    if chunks == [] {
      chunks := [SliceTo(cleaned, limit)];
    }
  }

  /** The loop of `split_message_chunks` and the final flush. */
  method SplitPieces(blocks: seq<string>, limit: int) returns (chunks: seq<string>)
    requires limit >= 1
    ensures Says(chunks, "", limit, InkOfAll(Pieces(blocks)))
    ensures forall p :: p in Pieces(blocks) && |p| <= limit ==> WithinSome(p, chunks)
  {
    chunks := [];
    var current, n := "", 0;
    while n < |blocks|
      invariant 0 <= n <= |blocks|
      invariant Says(chunks, current, limit, InkOfAll(Pieces(blocks[..n])))
      invariant Intact(Pieces(blocks[..n]), limit, chunks, current)
    {
      ghost var done := Pieces(blocks[..n]);
      PiecesNotBlank(blocks[..n]);
      PiecesStep(blocks, n);
      var piece := Strip(blocks[n]);
      n := n + 1;
      if piece == "" {
        continue;
      }
      assert Pieces(blocks[..n]) == done + [piece];
      StripIsInked(blocks[n - 1]);
      chunks, current := AddPiece(piece, limit, chunks, current, done);
    }
    assert blocks[..n] == blocks;
    PiecesNotBlank(blocks);
    AllFlushed(Pieces(blocks), limit, chunks, current);
    if current != "" {
      chunks := chunks + [current];
    }
  }

  lemma PiecesStep(blocks: seq<string>, n: nat)
    requires n < |blocks|
    ensures var piece := Strip(blocks[n]);
            Pieces(blocks[..n + 1]) == if piece == "" then Pieces(blocks[..n]) else Pieces(blocks[..n]) + [piece]
  {
    assert blocks[..n + 1][..n] == blocks[..n];
  }

  /** The final flush. */
  lemma AllFlushed(pieces: seq<string>, limit: int, chunks: seq<string>, current: string)
    requires Says(chunks, current, limit, InkOfAll(pieces)) && Intact(pieces, limit, chunks, current)
    requires forall i :: 0 <= i < |pieces| ==> pieces[i] != []
    ensures Says(Flushed(chunks, current), "", limit, InkOfAll(pieces))
    ensures forall p :: p in pieces && |p| <= limit ==> WithinSome(p, Flushed(chunks, current))
  {
    IntactFlushed(pieces, limit, chunks, current);
    SaysFlushed(chunks, current, limit, InkOfAll(pieces));
    AllIntact(pieces, limit, Flushed(chunks, current));
  }

  lemma StripIsInked(s: string)
    requires Strip(s) != []
    ensures !Blank(Strip(s))
  {
    StripIsTight(s);
    StripKeepsInk(s);
    BlankHasNoInk(s);
    BlankHasNoInk(Strip(s));
  }

  lemma AllIntact(pieces: seq<string>, limit: int, chunks: seq<string>)
    requires Intact(pieces, limit, chunks, "") && forall i :: 0 <= i < |pieces| ==> pieces[i] != []
    ensures forall p :: p in pieces && |p| <= limit ==> WithinSome(p, chunks)
  {
    forall p | p in pieces && |p| <= limit ensures WithinSome(p, chunks) {
      var i :| 0 <= i < |pieces| && pieces[i] == p;
      NotWithinEmpty(pieces[i]);
    }
  }

  /** One turn of the loop of `split_message_chunks`. */
  method AddPiece(piece: string, limit: int, chunks0: seq<string>, current0: string, ghost done: seq<string>)
    returns (chunks: seq<string>, current: string)
    requires limit >= 1 && !Blank(piece) && Says(chunks0, current0, limit, InkOfAll(done))
    requires (forall i :: 0 <= i < |done| ==> done[i] != []) && Intact(done, limit, chunks0, current0)
    ensures Says(chunks, current, limit, InkOfAll(done + [piece]))
    ensures Intact(done + [piece], limit, chunks, current)
  {
    chunks, current := chunks0, current0;
    InkOfAllAppend(done, piece);
    var candidate := if current == "" then piece else current + "\n\n" + piece;
    if |candidate| <= limit {
      SaysJoined(chunks, current, limit, InkOfAll(done), "\n\n", piece);
      IntactJoined(done, limit, chunks, current, piece);
      return chunks, candidate;
    }
    SaysFlushed(chunks, current, limit, InkOfAll(done));
    IntactFlushed(done, limit, chunks, current);
    if current != "" {
      chunks := chunks + [current];
    }
    chunks, current := StartPiece(piece, limit, chunks, done);
  }

  /** A piece that does not join the open chunk starts a new one, or is split. */
  method StartPiece(piece: string, limit: int, chunks0: seq<string>, ghost done: seq<string>)
    returns (chunks: seq<string>, current: string)
    requires limit >= 1 && !Blank(piece) && Says(chunks0, "", limit, InkOfAll(done))
    requires (forall i :: 0 <= i < |done| ==> done[i] != []) && Intact(done, limit, chunks0, "")
    ensures Says(chunks, current, limit, InkOfAll(done) + Ink(piece))
    ensures Intact(done + [piece], limit, chunks, current)
  {
    chunks := chunks0;
    if |piece| <= limit {
      SaysJoined(chunks, "", limit, InkOfAll(done), "\n\n", piece);
      IntactJoined(done, limit, chunks, "", piece);
      return chunks, piece;
    }
    var split := SplitLargeBlock(piece, limit);
    var last := |split| - 1;
    InkOfAllAppend(split[..last], split[last]);
    assert split[..last] + [split[last]] == split;
    SaysCut(chunks, limit, InkOfAll(done), split[..last], split[last], piece);
    IntactSplit(done, limit, chunks, piece, split[..last], split[last]);
    chunks, current := chunks + split[..last], split[last];
  }
}
