/** Citation numbers: from the reduction payload, through the model's reply, to the rendered evidence. */
module ResearchCitations {
  import opened Collections
  import opened Wrappers
  import opened PyText
  import opened ResearchSources

  // ---------------------------------------------------------------------
  // Source labels
  // ---------------------------------------------------------------------

  predicate IsDigit(c: char) { '0' <= c <= '9' }

  predicate AllDigits(s: string) {
    s != [] && forall i :: 0 <= i < |s| ==> IsDigit(s[i])
  }

  function DecimalValue(s: string): nat
    requires forall i :: 0 <= i < |s| ==> IsDigit(s[i])
  {
    if s == [] then 0
    else
      assert IsDigit(s[|s| - 1]);
      10 * DecimalValue(s[..|s| - 1]) + (s[|s| - 1] as int - '0' as int)
  }

  lemma {:induction false} DecimalRoundTrip(n: nat)
    ensures AllDigits(Decimal(n)) && DecimalValue(Decimal(n)) == n
  {
    if n >= 10 {
      DecimalRoundTrip(n / 10);
      var s := Decimal(n);
      assert s[..|s| - 1] == Decimal(n / 10);
    } else {
      assert [Digit(n)][..0] == [];
    }
  }

  /** The identifier of the k-th source, counted from 1. */
  function Label(k: nat): string {
    "S" + Decimal(k)
  }

  lemma LabelInjective(j: nat, k: nat)
    ensures Label(j) == Label(k) <==> j == k
  {
    DecimalRoundTrip(j);
    DecimalRoundTrip(k);
    assert Label(j)[1..] == Decimal(j) && Label(k)[1..] == Decimal(k);
  }

  // ---------------------------------------------------------------------
  // The payload shown to the reducing model
  // ---------------------------------------------------------------------

  datatype Entry = Entry(sourceId: string, title: string, publishedDate: string, excerpt: string)

  /** The length of `json.dumps(entries, ensure_ascii=False)`. */
  type RenderedLength = seq<Entry> -> nat

  function Excerpt(extracted: map<string, string>, source: Source): string {
    if source.canonicalUrl in extracted && extracted[source.canonicalUrl] != [] then extracted[source.canonicalUrl]
    else source.snippet
  }

  /** Entry `k` is source `k` under the number `k + 1`. */
  ghost predicate Numbers(payload: seq<Entry>, sources: seq<Source>) {
    && |payload| <= |sources|
    && forall k :: 0 <= k < |payload| ==>
         payload[k].sourceId == Label(k + 1) && payload[k].title == sources[k].title
         && payload[k].publishedDate == sources[k].publishedDate
  }

  function FullEntry(extracted: map<string, string>, sources: seq<Source>, k: nat): Entry
    requires k < |sources|
  {
    Entry(Label(k + 1), sources[k].title, sources[k].publishedDate, Excerpt(extracted, sources[k]))
  }

  /** The first `n` sources, in full. */
  function FullEntries(extracted: map<string, string>, sources: seq<Source>, n: nat): (entries: seq<Entry>)
    requires n <= |sources|
    ensures |entries| == n
  {
    if n == 0 then [] else FullEntries(extracted, sources, n - 1) + [FullEntry(extracted, sources, n - 1)]
  }

  lemma {:induction false} FullEntriesNumber(extracted: map<string, string>, sources: seq<Source>, n: nat)
    requires n <= |sources|
    ensures Numbers(FullEntries(extracted, sources, n), sources)
  {
    if n > 0 {
      FullEntriesNumber(extracted, sources, n - 1);
    }
  }

  /** `full` complete entries, and possibly one more whose excerpt was cut because it did not fit. */
  ghost predicate PayloadOf(length: RenderedLength, extracted: map<string, string>, sources: seq<Source>, maxInput: int,
                            full: nat, payload: seq<Entry>) {
    && full <= |sources|
    && (payload != [] ==> length(payload) <= maxInput)
    && (full < |sources| ==> length(FullEntries(extracted, sources, full + 1)) > maxInput)
    && (|| payload == FullEntries(extracted, sources, full)
        || (full < |sources| && exists excerpt ::
              payload == FullEntries(extracted, sources, full)
                + [FullEntry(extracted, sources, full).(excerpt := excerpt)]))
  }

  lemma PayloadNumbers(length: RenderedLength, extracted: map<string, string>, sources: seq<Source>, maxInput: int,
                       full: nat, payload: seq<Entry>)
    requires PayloadOf(length, extracted, sources, maxInput, full, payload)
    ensures Numbers(payload, sources)
  {
    FullEntriesNumber(extracted, sources, full);
  }

  /**
    `_source_payload`: entries in order while they fit; the first that does not may be shortened, and ends the list.
   */
  method SourcePayload(length: RenderedLength, extracted: map<string, string>, sources: seq<Source>, maxInput: int)
    returns (payload: seq<Entry>, ghost full: nat)
    ensures PayloadOf(length, extracted, sources, maxInput, full, payload)
  {
    payload := [];
    var k := 0;
    while k < |sources|
      invariant 0 <= k <= |sources|
      invariant payload == FullEntries(extracted, sources, k)
      invariant payload != [] ==> length(payload) <= maxInput
    {
      var entry := FullEntry(extracted, sources, k);
      assert payload + [entry] == FullEntries(extracted, sources, k + 1);
      if length(payload + [entry]) > maxInput {
        var fixedChars := length(payload + [entry.(excerpt := [])]);
        var remaining := maxInput - fixedChars;
        if remaining >= 120 {
          var excerpt := ShortenExcerpt(length, payload, entry, remaining, maxInput);
          if length(payload + [entry.(excerpt := excerpt)]) <= maxInput {
            payload := payload + [entry.(excerpt := excerpt)];
          }
        }
        return payload, k;
      }
      payload := payload + [entry];
      k := k + 1;
    }
    full := k;
  }

  /** The `while` loop that trims an excerpt until the payload fits or 120 characters are left. */
  method ShortenExcerpt(length: RenderedLength, payload: seq<Entry>, entry: Entry, remaining: int, maxInput: int)
    returns (excerpt: string)
    requires remaining >= 120
    ensures |excerpt| <= remaining
    ensures length(payload + [entry.(excerpt := excerpt)]) <= maxInput || |excerpt| <= 120
  {
    excerpt := CapText(entry.excerpt, remaining);
    CapTextFits(entry.excerpt, remaining);
    while length(payload + [entry.(excerpt := excerpt)]) > maxInput && |excerpt| > 120
      invariant |excerpt| <= remaining
      decreases |excerpt|
    {
      var overflow := length(payload + [entry.(excerpt := excerpt)]) - maxInput;
      var target := if |excerpt| - overflow >= 120 then |excerpt| - overflow else 120;
      CapTextFits(excerpt, target);
      excerpt := CapText(excerpt, target);
    }
  }

  // ---------------------------------------------------------------------
  // The model's reply
  // ---------------------------------------------------------------------

  /**
    What the reply's JSON object held: the compacted, capped summary and the stripped source ids, if they are a list.
   */
  datatype Reply = Reply(summary: string, sourceIds: Option<seq<string>>)

  /** `str.upper`, as far as the labels depend on it. */
  type UpperCase = string -> string

  ghost predicate KeepsLabels(upper: UpperCase) {
    forall k: nat :: upper(Label(k)) == Label(k)
  }

  /** The characters that are an S without regard to case, and those that are decimal digits. */
  datatype Scanner = Scanner(isS: char -> bool, isDecimal: char -> bool)

  /** An S and a number, however long. */
  ghost predicate IsCitationId(scan: Scanner, id: string) {
    |id| >= 2 && scan.isS(id[0]) && forall k :: 1 <= k < |id| ==> scan.isDecimal(id[k])
  }

  /** At position `i` the text cites `id`: an S and a number, between brackets. */
  ghost predicate CitesAt(scan: Scanner, text: string, i: nat, id: string) {
    && IsCitationId(scan, id)
    && i + |id| + 2 <= |text|
    && text[i] == '[' && text[i + 1..i + 1 + |id|] == id && text[i + 1 + |id|] == ']'
  }

  /** `str.upper` makes any S a capital one and leaves decimal digits alone. */
  ghost predicate ReadsCitations(scan: Scanner, upper: UpperCase) {
    && scan.isS('S') && (forall c :: IsDigit(c) ==> scan.isDecimal(c))
    && forall id :: IsCitationId(scan, id) ==> upper(id) == "S" + id[1..]
  }

  lemma LabelIsCitationId(scan: Scanner, upper: UpperCase, k: nat)
    requires ReadsCitations(scan, upper)
    ensures IsCitationId(scan, Label(k)) && upper(Label(k)) == Label(k)
  {
    DecimalRoundTrip(k);
    var id := Label(k);
    assert id[1..] == Decimal(k);
    forall j | 1 <= j < |id| ensures scan.isDecimal(id[j]) {
      assert id[j] == Decimal(k)[j - 1];
    }
  }

  lemma LabelsAreKept(scan: Scanner, upper: UpperCase)
    requires ReadsCitations(scan, upper)
    ensures KeepsLabels(upper)
  {
    forall k: nat ensures upper(Label(k)) == Label(k) {
      LabelIsCitationId(scan, upper, k);
    }
  }

  /** The text holds a citation of more digits than the pattern reads. */
  predicate HoldsLong(scan: Scanner, text: string) {
    exists i, n :: 0 <= i < |text| && 4 <= n < |text| && i + n + 2 <= |text| && Match(scan, text, i, n)
  }

  /** All identifiers that the pattern `\[(S\d{1,2})\]` captures, upper-cased. */
  function Cited(scan: Scanner, upper: UpperCase, summary: string): set<string> {
    set i, n | 0 <= i < |summary| && 2 <= n <= 3 && i + n + 2 <= |summary| && Match(scan, summary, i, n)
      :: upper(summary[i + 1..i + 1 + n])
  }

  predicate Match(scan: Scanner, summary: string, i: nat, n: nat)
    requires 2 <= n && i + n + 2 <= |summary|
  {
    && summary[i] == '[' && summary[i + n + 1] == ']'
    && scan.isS(summary[i + 1])
    && forall k :: i + 2 <= k < i + 1 + n ==> scan.isDecimal(summary[k])
  }

  lemma CitationMatches(scan: Scanner, text: string, i: nat, id: string)
    requires CitesAt(scan, text, i, id)
    ensures Match(scan, text, i, |id|)
  {
    forall k | i + 2 <= k < i + 1 + |id| ensures scan.isDecimal(text[k]) {
      assert text[k] == text[i + 1..i + 1 + |id|][k - i - 1];
    }
    assert text[i + 1] == text[i + 1..i + 1 + |id|][0];
  }

  lemma MatchCites(scan: Scanner, text: string, i: nat, n: nat)
    requires 2 <= n && i + n + 2 <= |text| && Match(scan, text, i, n)
    ensures CitesAt(scan, text, i, text[i + 1..i + 1 + n])
  {
  }

  lemma CitedComplete(scan: Scanner, upper: UpperCase, summary: string, i: nat, id: string)
    requires CitesAt(scan, summary, i, id) && |id| <= 3
    ensures upper(id) in Cited(scan, upper, summary)
  {
    CitationMatches(scan, summary, i, id);
  }

  /** `dict.fromkeys` over the known ids of the reply, upper-cased. */
  function KnownIds(upper: UpperCase, known: set<string>, ids: seq<string>): seq<string> {
    if ids == [] then []
    else
      var front := KnownIds(upper, known, ids[..|ids| - 1]);
      var id := upper(ids[|ids| - 1]);
      if id in known && id !in front then front + [id] else front
  }

  lemma {:induction false} KnownIdsAreKnown(upper: UpperCase, known: set<string>, ids: seq<string>)
    ensures forall id :: id in KnownIds(upper, known, ids) ==> id in known
  {
    if ids != [] {
      KnownIdsAreKnown(upper, known, ids[..|ids| - 1]);
    }
  }

  datatype Reduction = Reduction(summary: string, selectedIds: seq<string>)

  /** `_parse_reduction`: the summary survives only with known ids that cover everything it cites. */
  function ParseReduction(scan: Scanner, upper: UpperCase, hasUrl: string -> bool, reply: Reply,
                          knownIds: seq<string>): Reduction {
    if reply.summary == [] || hasUrl(reply.summary) || reply.sourceIds.None? then Reduction([], [])
    else
      var known := set id | id in knownIds :: upper(id);
      var selected := KnownIds(upper, known, reply.sourceIds.value);
      var cited := Cited(scan, upper, reply.summary);
      if selected == [] || cited == {} || !(cited <= set id | id in selected) then Reduction([], [])
      else Reduction(reply.summary, selected)
  }

  /** What the model call came to: no usable reply, or a parsed one. */
  datatype ModelResult = NoReply | Replied(reply: Option<Reply>)

  function PayloadIds(payload: seq<Entry>): (ids: seq<string>)
    ensures |ids| == |payload| && forall k :: 0 <= k < |payload| ==> ids[k] == payload[k].sourceId
  {
    seq(|payload|, k requires 0 <= k < |payload| => payload[k].sourceId)
  }

  /** `_reduce_one` after the payload: every failure falls back to all payload ids and no summary. */
  function Reduce(scan: Scanner, upper: UpperCase, hasUrl: string -> bool, result: ModelResult,
                  payload: seq<Entry>): Reduction {
    var fallback := Reduction([], PayloadIds(payload));
    if result.NoReply? || result.reply.None? then fallback
    else
      var r := ParseReduction(scan, upper, hasUrl, result.reply.value, PayloadIds(payload));
      if r.summary == [] || r.selectedIds == [] then fallback else r
  }

  /** `id` is the number of payload entry `k`, and it was selected. */
  ghost predicate Names(upper: UpperCase, payload: seq<Entry>, selectedIds: seq<string>, id: string, k: int) {
    0 <= k < |payload| && upper(id) == Label(k + 1) && Label(k + 1) in selectedIds
  }

  /** A citation of one or two digits in a summary that survives is a payload number, and selected. */
  lemma ShortCitationIsNamed(scan: Scanner, upper: UpperCase, hasUrl: string -> bool, result: ModelResult,
                             payload: seq<Entry>, sources: seq<Source>, i: nat, id: string)
    requires KeepsLabels(upper) && Numbers(payload, sources)
    requires CitesAt(scan, Reduce(scan, upper, hasUrl, result, payload).summary, i, id) && |id| <= 3
    ensures exists k :: Names(upper, payload, Reduce(scan, upper, hasUrl, result, payload).selectedIds, id, k)
  {
    var r := Reduce(scan, upper, hasUrl, result, payload);
    var ids := PayloadIds(payload);
    var known := set x | x in ids :: upper(x);
    CitedComplete(scan, upper, r.summary, i, id);
    KnownIdsAreKnown(upper, known, result.reply.value.sourceIds.value);
    assert upper(id) in r.selectedIds;
    assert upper(id) in known;
    var x :| x in ids && upper(x) == upper(id);
    var k :| 0 <= k < |ids| && ids[k] == x;
    assert upper(Label(k + 1)) == Label(k + 1);
    assert Names(upper, payload, r.selectedIds, id, k);
  }

  lemma ShortLabel(k: nat)
    requires k < 100
    ensures |Label(k)| <= 3
  {
    if k >= 10 {
      assert Decimal(k) == Decimal(k / 10) + [Digit(k % 10)] && |Decimal(k / 10)| == 1;
    }
  }

  /** Of fewer than a hundred entries none has a number of three digits. */
  lemma LongCitationIsUnnamed(scan: Scanner, upper: UpperCase, payload: seq<Entry>, selectedIds: seq<string>,
                              id: string)
    requires ReadsCitations(scan, upper) && IsCitationId(scan, id) && |id| >= 4 && |payload| < 100
    ensures forall k :: !Names(upper, payload, selectedIds, id, k)
  {
    forall k ensures !Names(upper, payload, selectedIds, id, k) {
      if 0 <= k < |payload| {
        ShortLabel(k + 1);
        assert |upper(id)| == |id|;
      }
    }
  }

  /** Every citation in the summary of a reduction is the number of a selected payload entry. */
  ghost predicate SummaryNames(scan: Scanner, upper: UpperCase, payload: seq<Entry>, r: Reduction) {
    forall i, id :: CitesAt(scan, r.summary, i, id) ==> exists k :: Names(upper, payload, r.selectedIds, id, k)
  }

  /** What survives names selected payload entries only, exactly when it holds no citation of three or more digits. */
  lemma SurvivingSummary(scan: Scanner, upper: UpperCase, hasUrl: string -> bool, result: ModelResult,
                         payload: seq<Entry>, sources: seq<Source>)
    requires ReadsCitations(scan, upper) && Numbers(payload, sources) && |payload| < 100
    ensures var r := Reduce(scan, upper, hasUrl, result, payload);
            SummaryNames(scan, upper, payload, r) <==> !HoldsLong(scan, r.summary)
  {
    LabelsAreKept(scan, upper);
    var r := Reduce(scan, upper, hasUrl, result, payload);
    if HoldsLong(scan, r.summary) {
      LongIsUnnamed(scan, upper, payload, r);
    } else {
      forall i: nat, id | CitesAt(scan, r.summary, i, id)
        ensures exists k :: Names(upper, payload, r.selectedIds, id, k)
      {
        CitationMatches(scan, r.summary, i, id);
        ShortCitationIsNamed(scan, upper, hasUrl, result, payload, sources, i, id);
      }
    }
  }

  lemma LongIsUnnamed(scan: Scanner, upper: UpperCase, payload: seq<Entry>, r: Reduction)
    requires ReadsCitations(scan, upper) && |payload| < 100 && HoldsLong(scan, r.summary)
    ensures !SummaryNames(scan, upper, payload, r)
  {
    var i, id := LongCitation(scan, r.summary);
    LongCitationIsUnnamed(scan, upper, payload, r.selectedIds, id);
  }

  lemma LongCitation(scan: Scanner, text: string) returns (i: nat, id: string)
    requires HoldsLong(scan, text)
    ensures CitesAt(scan, text, i, id) && |id| >= 4
  {
    var at, n :| 0 <= at < |text| && 4 <= n < |text| && at + n + 2 <= |text| && Match(scan, text, at, n);
    MatchCites(scan, text, at, n);
    i, id := at, text[at + 1..at + 1 + n];
  }

  // ---------------------------------------------------------------------
  // Selection and rendering
  // ---------------------------------------------------------------------

  function Tail(s: string): string {
    if s == [] then [] else s[1..]
  }

  /** `int(source_id[1:]) - 1` for the ids whose rest is digits. */
  function SelectedIndexes(ids: seq<string>): set<int> {
    set id | id in ids && AllDigits(Tail(id)) :: DecimalValue(Tail(id)) - 1
  }

  function SelectFrom(sources: seq<Source>, k: nat, indexes: set<int>): seq<Source>
    requires k <= |sources|
    decreases |sources| - k
  {
    if k == |sources| then []
    else (if k in indexes then [sources[k]] else []) + SelectFrom(sources, k + 1, indexes)
  }

  function SelectedSources(sources: seq<Source>, ids: seq<string>): seq<Source> {
    var chosen := SelectFrom(sources, 0, SelectedIndexes(ids));
    if chosen == [] then sources else chosen
  }

  lemma {:induction false} SelectFromMembers(sources: seq<Source>, k: nat, indexes: set<int>)
    requires k <= |sources|
    ensures forall i :: k <= i < |sources| && i in indexes ==> sources[i] in SelectFrom(sources, k, indexes)
    ensures forall s :: s in SelectFrom(sources, k, indexes) ==> s in sources[k..]
    decreases |sources| - k
  {
    if k < |sources| {
      SelectFromMembers(sources, k + 1, indexes);
      assert sources[k..] == [sources[k]] + sources[k + 1..];
    }
  }

  lemma LabelSelects(sources: seq<Source>, ids: seq<string>, k: nat)
    requires k < |sources| && Label(k + 1) in ids
    ensures sources[k] in SelectedSources(sources, ids)
  {
    DecimalRoundTrip(k + 1);
    var tag := Label(k + 1);
    assert Tail(tag) == Decimal(k + 1);
    assert k in SelectedIndexes(ids);
    SelectFromMembers(sources, 0, SelectedIndexes(ids));
  }

  /** `list.index`: the first position of an element. */
  function IndexOf(sources: seq<Source>, s: Source): nat {
    if sources == [] || sources[0] == s then 0 else 1 + IndexOf(sources[1..], s)
  }

  lemma {:induction false} IndexOfPosition(sources: seq<Source>, k: nat)
    requires k < |sources| && forall i :: 0 <= i < k ==> sources[i] != sources[k]
    ensures IndexOf(sources, sources[k]) == k
  {
    if k > 0 {
      assert sources[0] != sources[k];
      IndexOfPosition(sources[1..], k - 1);
    }
  }

  /** How a block must begin: its number, the title and the URL of its source. */
  function Heading(number: nat, s: Source): string {
    "[" + Label(number) + "] " + s.title + "\n" + "URL: " + s.url + "\n"
  }

  /**
    How evidence is written: the lines above the blocks, the fixed part of a numbered block, and the cut of an excerpt.
   */
  datatype Layout = Layout(header: (string, string) -> seq<string>, prefix: (nat, Source) -> string,
                           cap: (string, int) -> string) {
    ghost predicate Ok() {
      && (forall query, summary ::
          header(query, summary) != [] && (summary != [] ==> summary in header(query, summary)))
      && (forall number, s :: Heading(number, s) <= prefix(number, s))
      && (forall excerpt, room :: room >= 3 ==> |cap(excerpt, room)| <= room)
    }
  }

  function NyctiHeader(query: string, summary: string): seq<string> {
    ["Deep research evidence for: " + query]
    + (if summary != [] then ["Economy-model reduction:", summary] else [])
    + ["Provenance evidence:"]
  }

  /** Label and title, URL, and the date when it is known. */
  function NyctiPrefix(number: nat, s: Source): string {
    Heading(number, s)
    + (if s.publishedDate != [] then "Published: " + s.publishedDate + "\n" else "") + "Excerpt: "
  }

  function NyctiLayout(): (l: Layout)
    ensures l.Ok()
  {
    assert forall excerpt, room :: room >= 3 ==> |CapText(excerpt, room)| <= room by {
      forall excerpt: string, room: int | room >= 3 ensures |CapText(excerpt, room)| <= room {
        CapTextFits(excerpt, room);
      }
    }
    assert forall query, summary: string :: summary != [] ==> summary in NyctiHeader(query, summary) by {
      forall query: string, summary: string | summary != [] ensures summary in NyctiHeader(query, summary) {
        assert NyctiHeader(query, summary)[2] == summary;
      }
    }
    Layout((query, summary) => NyctiHeader(query, summary),
           (number: nat, s) => NyctiPrefix(number, s),
           (excerpt, room) => CapText(excerpt, room))
  }

  function Joined(lines: seq<string>): string {
    if lines == [] then []
    else if |lines| == 1 then lines[0]
    else Joined(lines[..|lines| - 1]) + "\n\n" + lines[|lines| - 1]
  }

  /** A source's block under its number in `all`, with the excerpt cut to the room left, at most 700 characters. */
  function Block(layout: Layout, all: seq<Source>, extracted: map<string, string>, s: Source, room: int): string {
    layout.prefix(IndexOf(all, s) + 1, s) + layout.cap(Excerpt(extracted, s), if room <= 700 then room else 700)
  }

  ghost predicate IsBlock(layout: Layout, all: seq<Source>, extracted: map<string, string>, s: Source, line: string) {
    exists room :: 80 <= room && line == Block(layout, all, extracted, s, room)
  }

  /** The rendered evidence below the header: one block for each included source. */
  datatype Rendered = Rendered(blocks: seq<string>, included: seq<Source>)

  ghost predicate Blocks(layout: Layout, all: seq<Source>, extracted: map<string, string>, r: Rendered) {
    && |r.blocks| == |r.included|
    && forall i :: 0 <= i < |r.blocks| ==> IsBlock(layout, all, extracted, r.included[i], r.blocks[i])
  }

  lemma BlocksSnoc(layout: Layout, all: seq<Source>, extracted: map<string, string>, r: Rendered, s: Source,
                   block: string)
    requires Blocks(layout, all, extracted, r) && IsBlock(layout, all, extracted, s, block)
    ensures Blocks(layout, all, extracted, Rendered(r.blocks + [block], r.included + [s]))
  {
  }

  /** The text of an outcome. */
  function Content(layout: Layout, query: string, shown: string, r: Rendered): string {
    Joined(layout.header(query, shown) + r.blocks)
  }

  ghost predicate Assembled(layout: Layout, query: string, summary: string, all: seq<Source>, selected: seq<Source>,
                            extracted: map<string, string>, maxChars: int, r: Rendered) {
    && r.included <= selected
    && Blocks(layout, all, extracted, r)
    && (r.included != [] ==> |Content(layout, query, summary, r)| <= maxChars)
    && (|r.included| < |selected| ==>
          var s := selected[|r.included|];
          |Content(layout, query, summary, r)| + 2 + |layout.prefix(IndexOf(all, s) + 1, s)| + 80 > maxChars)
  }

  lemma BlockFits(layout: Layout, all: seq<Source>, extracted: map<string, string>, s: Source, room: int)
    requires layout.Ok() && 80 <= room
    ensures |Block(layout, all, extracted, s, room)| <= |layout.prefix(IndexOf(all, s) + 1, s)| + room
  {
  }

  /** The characters left for the excerpt of the next block. */
  function Room(layout: Layout, all: seq<Source>, lines: seq<string>, s: Source, maxChars: int): int {
    maxChars - |Joined(lines)| - 2 - |layout.prefix(IndexOf(all, s) + 1, s)|
  }

  /** Blocks for the rest of the selection, while at least 80 characters of excerpt fit. */
  function AssembleFrom(layout: Layout, header: seq<string>, all: seq<Source>, selected: seq<Source>,
                        extracted: map<string, string>, maxChars: int, r: Rendered): Rendered
    decreases |selected| - |r.included|
  {
    if |r.included| >= |selected| then r
    else
      var s := selected[|r.included|];
      var room := Room(layout, all, header + r.blocks, s, maxChars);
      if room < 80 then r
      else
        var more := Rendered(r.blocks + [Block(layout, all, extracted, s, room)], r.included + [s]);
        AssembleFrom(layout, header, all, selected, extracted, maxChars, more)
  }

  function Assembly(layout: Layout, query: string, summary: string, all: seq<Source>, selected: seq<Source>,
                    extracted: map<string, string>, maxChars: int): Rendered {
    AssembleFrom(layout, layout.header(query, summary), all, selected, extracted, maxChars, Rendered([], []))
  }

  /** `assemble` after some turns. */
  ghost predicate Partial(layout: Layout, header: seq<string>, all: seq<Source>, selected: seq<Source>,
                          extracted: map<string, string>, maxChars: int, r: Rendered) {
    && r.included <= selected
    && Blocks(layout, all, extracted, r)
    && (r.included != [] ==> |Joined(header + r.blocks)| <= maxChars)
  }

  lemma PrefixSnoc(front: seq<Source>, all: seq<Source>)
    requires front <= all && |front| < |all|
    ensures front + [all[|front|]] <= all
  {
  }

  lemma PartialStep(layout: Layout, header: seq<string>, all: seq<Source>, selected: seq<Source>,
                    extracted: map<string, string>, maxChars: int, r: Rendered, block: string)
    requires Partial(layout, header, all, selected, extracted, maxChars, r) && |r.included| < |selected|
    requires IsBlock(layout, all, extracted, selected[|r.included|], block)
    requires |Joined((header + r.blocks) + [block])| <= maxChars
    ensures Partial(layout, header, all, selected, extracted, maxChars,
                    Rendered(r.blocks + [block], r.included + [selected[|r.included|]]))
  {
    var source := selected[|r.included|];
    BlocksSnoc(layout, all, extracted, r, source, block);
    assert header + (r.blocks + [block]) == (header + r.blocks) + [block];
    PrefixSnoc(r.included, selected);
  }

  /** A block with the room that is left keeps the text within its limit. */
  lemma NextBlockFits(layout: Layout, all: seq<Source>, extracted: map<string, string>, s: Source, lines: seq<string>,
                      maxChars: int)
    requires layout.Ok() && lines != [] && Room(layout, all, lines, s, maxChars) >= 80
    ensures var block := Block(layout, all, extracted, s, Room(layout, all, lines, s, maxChars));
            IsBlock(layout, all, extracted, s, block) && |Joined(lines + [block])| <= maxChars
  {
    var room := Room(layout, all, lines, s, maxChars);
    BlockFits(layout, all, extracted, s, room);
    JoinedSnoc(lines, Block(layout, all, extracted, s, room));
  }

  lemma {:induction false} AssembledFrom(layout: Layout, query: string, summary: string, all: seq<Source>,
                                         selected: seq<Source>, extracted: map<string, string>, maxChars: int,
                                         r: Rendered)
    requires layout.Ok() && Partial(layout, layout.header(query, summary), all, selected, extracted, maxChars, r)
    ensures Assembled(layout, query, summary, all, selected, extracted, maxChars,
                      AssembleFrom(layout, layout.header(query, summary), all, selected, extracted, maxChars, r))
    decreases |selected| - |r.included|
  {
    var header := layout.header(query, summary);
    if |r.included| < |selected| {
      var s := selected[|r.included|];
      var room := Room(layout, all, header + r.blocks, s, maxChars);
      if room >= 80 {
        NextBlockFits(layout, all, extracted, s, header + r.blocks, maxChars);
        var block := Block(layout, all, extracted, s, room);
        PartialStep(layout, header, all, selected, extracted, maxChars, r, block);
        AssembledFrom(layout, query, summary, all, selected, extracted, maxChars,
                      Rendered(r.blocks + [block], r.included + [s]));
      }
    }
  }

  /** Blocks in selection order while 80 characters of excerpt fit, and a text within its limit. */
  lemma AssemblyIsAssembled(layout: Layout, query: string, summary: string, all: seq<Source>, selected: seq<Source>,
                            extracted: map<string, string>, maxChars: int)
    requires layout.Ok()
    ensures Assembled(layout, query, summary, all, selected, extracted, maxChars,
                      Assembly(layout, query, summary, all, selected, extracted, maxChars))
  {
    AssembledFrom(layout, query, summary, all, selected, extracted, maxChars, Rendered([], []));
  }

  /** The nested `assemble`. */
  method Assemble(layout: Layout, query: string, summary: string, all: seq<Source>, selected: seq<Source>,
                  extracted: map<string, string>, maxChars: int)
    returns (r: Rendered)
    ensures r == Assembly(layout, query, summary, all, selected, extracted, maxChars)
  {
    var header := layout.header(query, summary);
    r := Rendered([], []);
    while |r.included| < |selected|
      invariant AssembleFrom(layout, header, all, selected, extracted, maxChars, r)
             == Assembly(layout, query, summary, all, selected, extracted, maxChars)
      decreases |selected| - |r.included|
    {
      var source := selected[|r.included|];
      var remaining := Room(layout, all, header + r.blocks, source, maxChars);
      if remaining < 80 {
        break;
      }
      r := Rendered(r.blocks + [Block(layout, all, extracted, source, remaining)], r.included + [source]);
    }
  }

  lemma JoinedSnoc(lines: seq<string>, line: string)
    requires lines != []
    ensures Joined(lines + [line]) == Joined(lines) + "\n\n" + line
  {
    assert (lines + [line])[..|lines|] == lines;
  }

  /** The summary as it is shown: dropped unless every selected source has its block. */
  function ShownSummary(layout: Layout, query: string, summary: string, all: seq<Source>, selected: seq<Source>,
                        extracted: map<string, string>, maxChars: int): string {
    if |Assembly(layout, query, summary, all, selected, extracted, maxChars).included| < |selected| then [] else summary
  }

  /** `_render_outcome_evidence`. */
  method RenderEvidence(layout: Layout, query: string, summary: string, all: seq<Source>, selected: seq<Source>,
                        extracted: map<string, string>, maxChars: int)
    returns (r: Rendered, shown: string)
    requires layout.Ok()
    ensures shown == ShownSummary(layout, query, summary, all, selected, extracted, maxChars)
    ensures r == Assembly(layout, query, shown, all, selected, extracted, maxChars)
    ensures shown != [] ==> r.included == selected
  {
    AssemblyIsAssembled(layout, query, summary, all, selected, extracted, maxChars);
    r := Assemble(layout, query, summary, all, selected, extracted, maxChars);
    shown := summary;
    if summary != [] && |r.included| < |selected| {
      r := Assemble(layout, query, [], all, selected, extracted, maxChars);
      shown := [];
    }
  }

  // ---------------------------------------------------------------------
  // One query, end to end
  // ---------------------------------------------------------------------

  datatype Outcome = NoSources | NoEvidence | Evidence(rendered: Rendered, shown: string)

  /** `part` stands in `text` at position `i`. */
  predicate StandsAt(text: string, part: string, i: int) {
    0 <= i <= |text| - |part| && text[i..i + |part|] == part
  }

  ghost predicate Contains(text: string, part: string) {
    exists i :: StandsAt(text, part, i)
  }

  lemma {:induction false} LineStandsInJoined(lines: seq<string>, k: nat)
    requires k < |lines|
    ensures Contains(Joined(lines), lines[k])
  {
    var n := |lines| - 1;
    if n == 0 {
      assert StandsAt(lines[0], lines[0], 0);
    } else {
      var front := Joined(lines[..n]) + "\n\n";
      assert Joined(lines) == front + lines[n];
      if k == n {
        assert StandsAt(front + lines[n], lines[n], |front|);
      } else {
        LineStandsInJoined(lines[..n], k);
        var i :| StandsAt(Joined(lines[..n]), lines[k], i);
        assert StandsAt(front + lines[n], lines[k], i);
      }
    }
  }

  /** The text of an outcome holds its summary and every block. */
  lemma ContentHolds(layout: Layout, query: string, shown: string, r: Rendered)
    requires layout.Ok()
    ensures shown != [] ==> Contains(Content(layout, query, shown, r), shown)
    ensures forall i :: 0 <= i < |r.blocks| ==> Contains(Content(layout, query, shown, r), r.blocks[i])
  {
    var header := layout.header(query, shown);
    var lines := header + r.blocks;
    if shown != [] {
      var k :| 0 <= k < |header| && header[k] == shown;
      LineStandsInJoined(lines, k);
    }
    forall i | 0 <= i < |r.blocks| ensures Contains(Content(layout, query, shown, r), r.blocks[i]) {
      LineStandsInJoined(lines, |header| + i);
      assert lines[|header| + i] == r.blocks[i];
    }
  }

  /**
    The citation contract of an outcome: each cited number is the payload's number of the source whose block carries
    it.
   */
  ghost predicate CitationsSound(layout: Layout, scan: Scanner, upper: UpperCase, query: string, sources: seq<Source>,
                                 payload: seq<Entry>, extracted: map<string, string>, outcome: Outcome) {
    outcome.Evidence? ==>
      && (outcome.shown != [] ==> Contains(Content(layout, query, outcome.shown, outcome.rendered), outcome.shown))
      && forall at, id :: CitesAt(scan, outcome.shown, at, id) ==>
           exists k, i :: CitedBlock(layout, upper, query, sources, payload, extracted, outcome, id, k, i)
  }

  /**
    `id` names source `k`, which the payload numbered so. Block `i` begins with that number, with the title and the URL
    of that source, it goes on as this source's block does, and it stands in the text of the outcome.
   */
  ghost predicate CitedBlock(layout: Layout, upper: UpperCase, query: string, sources: seq<Source>, payload: seq<Entry>,
                             extracted: map<string, string>, outcome: Outcome, id: string, k: int, i: int)
    requires outcome.Evidence?
  {
    && 0 <= k < |payload| <= |sources|
    && upper(id) == Label(k + 1) == payload[k].sourceId
    && payload[k].title == sources[k].title
    && 0 <= i < |outcome.rendered.blocks|
    && Heading(k + 1, sources[k]) <= outcome.rendered.blocks[i]
    && IsBlock(layout, sources, extracted, sources[k], outcome.rendered.blocks[i])
    && Contains(Content(layout, query, outcome.shown, outcome.rendered), outcome.rendered.blocks[i])
  }

  /** The outcome of a query with its reduction. */
  function OutcomeOf(layout: Layout, query: string, sources: seq<Source>, extracted: map<string, string>,
                     reduction: Reduction, maxChars: int): Outcome {
    if sources == [] then NoSources
    else
      var selected := SelectedSources(sources, reduction.selectedIds);
      var shown := ShownSummary(layout, query, reduction.summary, sources, selected, extracted, maxChars);
      var rendered := Assembly(layout, query, shown, sources, selected, extracted, maxChars);
      if rendered.included == [] then NoEvidence else Evidence(rendered, shown)
  }

  /** `_build_outcome`. */
  method BuildOutcome(layout: Layout, query: string, sources: seq<Source>, extracted: map<string, string>,
                      reduction: Reduction, maxChars: int)
    returns (outcome: Outcome)
    requires layout.Ok()
    ensures outcome == OutcomeOf(layout, query, sources, extracted, reduction, maxChars)
  {
    if sources == [] {
      return NoSources;
    }
    var selected := SelectedSources(sources, reduction.selectedIds);
    var rendered, shown := RenderEvidence(layout, query, reduction.summary, sources, selected, extracted, maxChars);
    if rendered.included == [] {
      return NoEvidence;
    }
    return Evidence(rendered, shown);
  }

  /** A shown summary is the reduction's, whole, with a block for every selected source, in a text within its limit. */
  lemma OutcomeShowsAll(layout: Layout, query: string, sources: seq<Source>, extracted: map<string, string>,
                        reduction: Reduction, maxChars: int)
    requires layout.Ok()
    ensures var outcome := OutcomeOf(layout, query, sources, extracted, reduction, maxChars);
            var selected := SelectedSources(sources, reduction.selectedIds);
            outcome.Evidence? ==>
              && Assembled(layout, query, outcome.shown, sources, selected, extracted, maxChars, outcome.rendered)
              && outcome.rendered.included != []
              && (outcome.shown == reduction.summary || outcome.shown == [])
              && (outcome.shown != [] ==> outcome.rendered.included == selected)
  {
    if sources != [] {
      var selected := SelectedSources(sources, reduction.selectedIds);
      var shown := ShownSummary(layout, query, reduction.summary, sources, selected, extracted, maxChars);
      AssemblyIsAssembled(layout, query, shown, sources, selected, extracted, maxChars);
    }
  }

  lemma BlockStartsWithHeading(layout: Layout, all: seq<Source>, extracted: map<string, string>, s: Source,
                               line: string)
    requires layout.Ok() && IsBlock(layout, all, extracted, s, line)
    ensures Heading(IndexOf(all, s) + 1, s) <= line
  {
    var number := IndexOf(all, s) + 1;
    assert Heading(number, s) <= layout.prefix(number, s) <= line;
  }

  lemma BlockOfSource(layout: Layout, sources: seq<Source>, selected: seq<Source>, extracted: map<string, string>,
                      r: Rendered, k: nat) returns (i: nat)
    requires layout.Ok() && r.included == selected && Blocks(layout, sources, extracted, r)
    requires Distinct(sources) && k < |sources| && sources[k] in selected
    ensures i < |r.blocks| && IsBlock(layout, sources, extracted, sources[k], r.blocks[i])
    ensures Heading(k + 1, sources[k]) <= r.blocks[i]
  {
    i :| 0 <= i < |selected| && selected[i] == sources[k];
    IndexOfPosition(sources, k);
    BlockStartsWithHeading(layout, sources, extracted, sources[k], r.blocks[i]);
  }

  /** The outcome shows a summary with a citation of three or more digits. */
  predicate ShowsLong(scan: Scanner, outcome: Outcome) {
    outcome.Evidence? && HoldsLong(scan, outcome.shown)
  }

  /**
    Payload, reply, selection and rendering keep each citation on its source, exactly when no citation of three or more
    digits is shown.
   */
  lemma CitationsKeepTheirSource(layout: Layout, scan: Scanner, upper: UpperCase, hasUrl: string -> bool, query: string,
                                 sources: seq<Source>, payload: seq<Entry>, extracted: map<string, string>,
                                 result: ModelResult, maxChars: int)
    requires layout.Ok() && ReadsCitations(scan, upper)
    requires Distinct(sources) && Numbers(payload, sources) && |payload| < 100
    ensures var reduction := Reduce(scan, upper, hasUrl, result, payload);
            var outcome := OutcomeOf(layout, query, sources, extracted, reduction, maxChars);
            CitationsSound(layout, scan, upper, query, sources, payload, extracted, outcome)
            <==> !ShowsLong(scan, outcome)
  {
    var reduction := Reduce(scan, upper, hasUrl, result, payload);
    var outcome := OutcomeOf(layout, query, sources, extracted, reduction, maxChars);
    if ShowsLong(scan, outcome) {
      LongCitationIsUnsound(layout, scan, upper, query, sources, payload, extracted, outcome);
    } else if outcome.Evidence? {
      ShortCitationsAreSound(layout, scan, upper, hasUrl, query, sources, payload, extracted, result, maxChars);
    }
  }

  lemma LongCitationIsUnsound(layout: Layout, scan: Scanner, upper: UpperCase, query: string, sources: seq<Source>,
                              payload: seq<Entry>, extracted: map<string, string>, outcome: Outcome)
    requires ReadsCitations(scan, upper) && |payload| < 100 && ShowsLong(scan, outcome)
    ensures !CitationsSound(layout, scan, upper, query, sources, payload, extracted, outcome)
  {
    var at, id := LongCitation(scan, outcome.shown);
    forall k, i ensures !CitedBlock(layout, upper, query, sources, payload, extracted, outcome, id, k, i) {
      if 0 <= k < |payload| {
        ShortLabel(k + 1);
        assert |upper(id)| == |id|;
      }
    }
  }

  lemma ShortCitationsAreSound(layout: Layout, scan: Scanner, upper: UpperCase, hasUrl: string -> bool, query: string,
                               sources: seq<Source>, payload: seq<Entry>, extracted: map<string, string>,
                               result: ModelResult, maxChars: int)
    requires layout.Ok() && ReadsCitations(scan, upper)
    requires Distinct(sources) && Numbers(payload, sources) && |payload| < 100
    requires var reduction := Reduce(scan, upper, hasUrl, result, payload);
             var outcome := OutcomeOf(layout, query, sources, extracted, reduction, maxChars);
             outcome.Evidence? && !HoldsLong(scan, outcome.shown)
    ensures var reduction := Reduce(scan, upper, hasUrl, result, payload);
            var outcome := OutcomeOf(layout, query, sources, extracted, reduction, maxChars);
            CitationsSound(layout, scan, upper, query, sources, payload, extracted, outcome)
  {
    var reduction := Reduce(scan, upper, hasUrl, result, payload);
    var outcome := OutcomeOf(layout, query, sources, extracted, reduction, maxChars);
    var selected := SelectedSources(sources, reduction.selectedIds);
    OutcomeShowsAll(layout, query, sources, extracted, reduction, maxChars);
    ContentHolds(layout, query, outcome.shown, outcome.rendered);
    SurvivingSummary(scan, upper, hasUrl, result, payload, sources);
    forall at: nat, id | CitesAt(scan, outcome.shown, at, id)
      ensures exists k, i :: CitedBlock(layout, upper, query, sources, payload, extracted, outcome, id, k, i)
    {
      var k :| Names(upper, payload, reduction.selectedIds, id, k);
      LabelSelects(sources, reduction.selectedIds, k);
      var i := BlockOfSource(layout, sources, selected, extracted, outcome.rendered, k);
      assert CitedBlock(layout, upper, query, sources, payload, extracted, outcome, id, k, i);
    }
  }

  // ---------------------------------------------------------------------
  // A citation that slips through
  // ---------------------------------------------------------------------

  /** The pattern reads the first citation of this summary and overlooks the second. */
  const SLIPPING: string := "A [S1]. B [S123]."

  lemma SlippingMatches(scan: Scanner)
    ensures forall i, n ::
      0 <= i < |SLIPPING| && 2 <= n <= 3 && i + n + 2 <= |SLIPPING| && Match(scan, SLIPPING, i, n) ==> i == 2 && n == 2
  {
    var s := SLIPPING;
    forall i, n | 0 <= i < |s| && 2 <= n <= 3 && i + n + 2 <= |s| && Match(scan, s, i, n) ensures i == 2 && n == 2 {
      assert s[i] == '[';
    }
  }

  lemma SlippingIsRead(scan: Scanner, upper: UpperCase)
    requires ReadsCitations(scan, upper)
    ensures Cited(scan, upper, SLIPPING) == {"S1"} && CitesAt(scan, SLIPPING, 10, "S123") && HoldsLong(scan, SLIPPING)
  {
    var s := SLIPPING;
    assert IsDigit('1') && IsDigit('2') && IsDigit('3');
    assert |s| == 17 && s[3..5] == "S1" && s[11..15] == "S123";
    assert Match(scan, s, 2, 2) && Match(scan, s, 10, 4);
    assert IsCitationId(scan, "S1") && upper("S1") == "S1";
    SlippingMatches(scan);
  }

  /** With one source, the reply that names `S1` and cites `[S1]` and `[S123]` is shown as it is. */
  lemma LongCitationSlips(layout: Layout, scan: Scanner, upper: UpperCase, hasUrl: string -> bool, query: string,
                          source: Source, extracted: map<string, string>, maxChars: int)
    requires layout.Ok() && ReadsCitations(scan, upper) && !hasUrl(SLIPPING)
    requires Room(layout, [source], layout.header(query, SLIPPING), source, maxChars) >= 80
    ensures var payload := FullEntries(extracted, [source], 1);
            var reduction := Reduce(scan, upper, hasUrl, Replied(Some(Reply(SLIPPING, Some(["S1"])))), payload);
            var outcome := OutcomeOf(layout, query, [source], extracted, reduction, maxChars);
            && reduction == Reduction(SLIPPING, ["S1"])
            && outcome.Evidence? && outcome.shown == SLIPPING
            && CitesAt(scan, outcome.shown, 10, "S123")
            && forall k :: !Names(upper, payload, reduction.selectedIds, "S123", k)
  {
    var payload := FullEntries(extracted, [source], 1);
    SlippingIsReduced(scan, upper, hasUrl, payload);
    SlippingIsRead(scan, upper);
    var reduction := Reduction(SLIPPING, ["S1"]);
    LongCitationIsUnnamed(scan, upper, payload, reduction.selectedIds, "S123");
    OnlySourceIsSelected(source, reduction.selectedIds);
    OnlySourceFits(layout, query, SLIPPING, source, extracted, maxChars);
  }

  lemma SlippingIsReduced(scan: Scanner, upper: UpperCase, hasUrl: string -> bool, payload: seq<Entry>)
    requires ReadsCitations(scan, upper) && !hasUrl(SLIPPING) && |payload| == 1 && payload[0].sourceId == Label(1)
    ensures Reduce(scan, upper, hasUrl, Replied(Some(Reply(SLIPPING, Some(["S1"])))), payload)
         == Reduction(SLIPPING, ["S1"])
  {
    SlippingIsRead(scan, upper);
    LabelIsCitationId(scan, upper, 1);
    assert Label(1) == "S1";
    var ids := PayloadIds(payload);
    assert ids == ["S1"];
    var known := set id | id in ids :: upper(id);
    assert known == {"S1"};
    var replied := ["S1"];
    assert replied[..0] == [] && KnownIds(upper, known, replied) == ["S1"];
  }

  lemma OnlySourceIsSelected(source: Source, ids: seq<string>)
    ensures SelectedSources([source], ids) == [source]
  {
    assert SelectFrom([source], 1, SelectedIndexes(ids)) == [];
  }

  lemma OnlySourceFits(layout: Layout, query: string, summary: string, source: Source, extracted: map<string, string>,
                       maxChars: int)
    requires Room(layout, [source], layout.header(query, summary), source, maxChars) >= 80
    ensures Assembly(layout, query, summary, [source], [source], extracted, maxChars).included == [source]
  {
    var header, one, none := layout.header(query, summary), [source], Rendered([], []);
    assert header + none.blocks == header;
    var block := Block(layout, one, extracted, source, Room(layout, one, header, source, maxChars));
    var more := Rendered(none.blocks + [block], none.included + [source]);
    assert AssembleFrom(layout, header, one, one, extracted, maxChars, none)
        == AssembleFrom(layout, header, one, one, extracted, maxChars, more) == more;
  }

  // ---------------------------------------------------------------------
  // All queries of a run
  // ---------------------------------------------------------------------

  /** Every query with evidence gets a payload, and its reduction enters a dictionary keyed by query text. */
  method CollectReductions(scan: Scanner, upper: UpperCase, hasUrl: string -> bool, length: RenderedLength,
                           queries: seq<string>, evidence: seq<seq<Source>>, extracted: map<string, string>,
                           results: seq<ModelResult>, maxInput: string -> int)
    returns (payloads: seq<seq<Entry>>, byQuery: map<string, Reduction>)
    requires Distinct(queries) && |evidence| == |queries| && |results| == |queries|
    ensures |payloads| == |queries|
    ensures forall q :: 0 <= q < |queries| ==> Numbers(payloads[q], evidence[q])
    ensures forall q :: 0 <= q < |queries| && evidence[q] != [] ==>
      queries[q] in byQuery && byQuery[queries[q]] == Reduce(scan, upper, hasUrl, results[q], payloads[q])
  {
    payloads, byQuery := [], map[];
    var q := 0;
    while q < |queries|
      invariant 0 <= q <= |queries| && |payloads| == q
      invariant forall i :: 0 <= i < q ==> Numbers(payloads[i], evidence[i])
      invariant forall i :: 0 <= i < q && evidence[i] != [] ==>
        queries[i] in byQuery && byQuery[queries[i]] == Reduce(scan, upper, hasUrl, results[i], payloads[i])
    {
      var payload := [];
      if evidence[q] != [] {
        ghost var full;
        payload, full := SourcePayload(length, extracted, evidence[q], maxInput(queries[q]));
        PayloadNumbers(length, extracted, evidence[q], maxInput(queries[q]), full, payload);
        byQuery := byQuery[queries[q] := Reduce(scan, upper, hasUrl, results[q], payload)];
      }
      payloads := payloads + [payload];
      q := q + 1;
    }
  }

  /** The outcome of one query as its own evidence, payload and reply make it, and when its citations are sound. */
  ghost predicate Answered(layout: Layout, scan: Scanner, upper: UpperCase, hasUrl: string -> bool, query: string,
                           sources: seq<Source>, payload: seq<Entry>, extracted: map<string, string>,
                           result: ModelResult, maxChars: int, outcome: Outcome) {
    && Numbers(payload, sources)
    && outcome == OutcomeOf(layout, query, sources, extracted, Reduce(scan, upper, hasUrl, result, payload), maxChars)
    && (CitationsSound(layout, scan, upper, query, sources, payload, extracted, outcome)
        <==> !ShowsLong(scan, outcome))
  }

  /** One query's outcome, built from the reduction of its own payload. */
  method OutcomeOfQuery(layout: Layout, scan: Scanner, upper: UpperCase, hasUrl: string -> bool, query: string,
                        sources: seq<Source>, ghost payload: seq<Entry>, extracted: map<string, string>,
                        ghost result: ModelResult, reduction: Reduction, maxChars: int)
    returns (outcome: Outcome)
    requires layout.Ok() && ReadsCitations(scan, upper)
    requires Distinct(sources) && Numbers(payload, sources) && |payload| < 100
    requires sources != [] ==> reduction == Reduce(scan, upper, hasUrl, result, payload)
    ensures Answered(layout, scan, upper, hasUrl, query, sources, payload, extracted, result, maxChars, outcome)
  {
    outcome := BuildOutcome(layout, query, sources, extracted, reduction, maxChars);
    CitationsKeepTheirSource(layout, scan, upper, hasUrl, query, sources, payload, extracted, result, maxChars);
  }

  /** The whole run: every query is answered from its own evidence, payload and reply. */
  method ResearchOutcomes(layout: Layout, scan: Scanner, upper: UpperCase, hasUrl: string -> bool,
                          length: RenderedLength, queries: seq<string>, evidence: seq<seq<Source>>,
                          extracted: map<string, string>, results: seq<ModelResult>, maxInput: string -> int,
                          maxChars: int)
    returns (payloads: seq<seq<Entry>>, outcomes: seq<Outcome>)
    requires layout.Ok() && ReadsCitations(scan, upper)
    requires Distinct(queries) && |evidence| == |queries| && |results| == |queries|
    requires forall q :: 0 <= q < |queries| ==> Distinct(evidence[q]) && |evidence[q]| < 100
    ensures |payloads| == |queries| && |outcomes| == |queries|
    ensures forall q :: 0 <= q < |queries| ==>
      Answered(layout, scan, upper, hasUrl, queries[q], evidence[q], payloads[q], extracted, results[q], maxChars,
               outcomes[q])
  {
    var byQuery;
    payloads, byQuery :=
      CollectReductions(scan, upper, hasUrl, length, queries, evidence, extracted, results, maxInput);
    outcomes := [];
    var q := 0;
    while q < |queries|
      invariant 0 <= q <= |queries| && |outcomes| == q
      invariant forall i :: 0 <= i < q ==>
        Answered(layout, scan, upper, hasUrl, queries[i], evidence[i], payloads[i], extracted, results[i], maxChars,
                 outcomes[i])
    {
      var reduction := if queries[q] in byQuery then byQuery[queries[q]] else Reduction([], []);
      var outcome := OutcomeOfQuery(layout, scan, upper, hasUrl, queries[q], evidence[q], payloads[q], extracted,
                                    results[q], reduction, maxChars);
      outcomes := outcomes + [outcome];
      q := q + 1;
    }
  }

  /** The evidence of a query is duplicate-free, as the rendering needs: it is part of the ranked sources. */
  lemma EvidenceIsDistinct(primary: PrimaryScore, results: seq<SearchResult>, unique: seq<Source>, urls: set<string>,
                           n: nat)
    requires Ranked(primary, results, unique)
    ensures Distinct(First(Returned(unique, urls), n))
  {
    ReturnedUrls(unique, urls);
    var r := Returned(unique, urls);
    forall i, j | 0 <= i < j < |r| ensures r[i] != r[j] {
      assert Urls(r)[i] != Urls(r)[j];
    }
  }
}
