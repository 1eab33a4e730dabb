/** Announcing evidence to the model: each evidence id is shown again only when its evidence became better. */
module EvidenceGuidance {
  import opened Collections
  import opened Wrappers
  import opened EvidenceLedger

  const DEFAULT_MAX_GUIDANCE_CHARS := 6000

  const PRECISE_EVIDENCE_TOOLS: set<string> :=
    {"annual_perf", "browser_extract", "price_hist", "calc", "quote", "url_extract", "yt_transcript"}

  /** The fixed sentences: the header lines (with and without citations), and the text for an empty ledger. */
  datatype Wording = Wording(header: bool -> seq<string>, nothing: string)

  // ---------------------------------------------------------------------
  // Bounded rendering
  // ---------------------------------------------------------------------

  datatype Rendered = Rendered(text: string, items: seq<EvidenceItem>)

  function Line(item: EvidenceItem): string {
    "- [" + item.evidenceId + "] tool=" + item.toolName + "; source=" + item.source + "; excerpt=" + item.excerpt
  }

  function Lines(items: seq<EvidenceItem>): (lines: seq<string>)
    ensures |lines| == |items| && forall i :: 0 <= i < |items| ==> lines[i] == Line(items[i])
  {
    seq(|items|, i requires 0 <= i < |items| => Line(items[i]))
  }

  /** `"\n".join(lines)`. */
  function JoinLines(lines: seq<string>): string {
    if lines == [] then ""
    else if |lines| == 1 then lines[0]
    else JoinLines(lines[..|lines| - 1]) + "\n" + lines[|lines| - 1]
  }

  /** The whole text that shows `items`. */
  function Page(header: seq<string>, items: seq<EvidenceItem>): string {
    JoinLines(header + Lines(items))
  }

  lemma PageGrows(header: seq<string>, items: seq<EvidenceItem>, item: EvidenceItem)
    ensures |Page(header, items)| <= |Page(header, items + [item])|
  {
    var before, after := header + Lines(items), header + Lines(items + [item]);
    assert Lines(items + [item]) == Lines(items) + [Line(item)];
    assert after == before + [Line(item)];
    assert after[..|after| - 1] == before;
  }

  lemma LineAdded(header: seq<string>, items: seq<EvidenceItem>, i: nat)
    requires i < |items|
    ensures items[..i + 1] == items[..i] + [items[i]]
    ensures header + Lines(items[..i + 1]) == header + Lines(items[..i]) + [Line(items[i])]
  {
    assert items[..i + 1] == items[..i] + [items[i]];
    assert Lines(items[..i + 1]) == Lines(items[..i]) + [Line(items[i])];
  }

  lemma {:induction false} LongerPageLonger(header: seq<string>, items: seq<EvidenceItem>, j: nat, k: nat)
    requires j <= k <= |items|
    ensures |Page(header, items[..j])| <= |Page(header, items[..k])|
  {
    if j < k {
      LongerPageLonger(header, items, j, k - 1);
      assert items[..k - 1] + [items[k - 1]] == items[..k];
      PageGrows(header, items[..k - 1], items[k - 1]);
    }
  }

  /** A page of the first `k` items fits exactly when `k` is at most `n`. */
  ghost predicate FitsUpTo(header: seq<string>, items: seq<EvidenceItem>, maxChars: int, n: nat)
    requires n <= |items|
  {
    forall k :: 1 <= k <= |items| ==> (|Page(header, items[..k])| <= maxChars <==> k <= n)
  }

  lemma FitsUpToFound(header: seq<string>, items: seq<EvidenceItem>, maxChars: int, n: nat)
    requires n <= |items|
    requires n >= 1 ==> |Page(header, items[..n])| <= maxChars
    requires n < |items| ==> |Page(header, items[..n + 1])| > maxChars
    ensures FitsUpTo(header, items, maxChars, n)
  {
    forall k | 1 <= k <= |items| ensures |Page(header, items[..k])| <= maxChars <==> k <= n {
      if k <= n {
        LongerPageLonger(header, items, k, n);
      } else {
        LongerPageLonger(header, items, n + 1, k);
      }
    }
  }

  /** What was rendered is the longest prefix whose page fits, and the text is that page. */
  ghost predicate RenderedLongest(header: seq<string>, items: seq<EvidenceItem>, maxChars: int, r: Rendered) {
    && r.items <= items
    && FitsUpTo(header, items, maxChars, |r.items|)
    && r.text == Page(header, r.items)
  }

  lemma RenderedFound(header: seq<string>, items: seq<EvidenceItem>, maxChars: int, n: nat)
    requires n <= |items|
    requires n >= 1 ==> |Page(header, items[..n])| <= maxChars
    requires n < |items| ==> |Page(header, items[..n + 1])| > maxChars
    ensures RenderedLongest(header, items, maxChars, Rendered(Page(header, items[..n]), items[..n]))
  {
    FitsUpToFound(header, items, maxChars, n);
  }

  /** `render_bounded_model_guidance`: stops at the first item whose line does not fit any more. */
  method RenderBounded(w: Wording, items: seq<EvidenceItem>, maxChars: int, citations: bool)
    returns (r: Result<Rendered, string>)
    ensures items == [] ==> r == Ok(Rendered(w.nothing, []))
    ensures items != [] && maxChars < 200 ==> r.Err?
    ensures items != [] && maxChars >= 200 ==> r.Ok? && RenderedLongest(w.header(citations), items, maxChars, r.value)
  {
    if items == [] {
      return Ok(Rendered(w.nothing, []));
    }
    if maxChars < 200 {
      return Err("max_chars must be at least 200");
    }
    var header := w.header(citations);
    var lines := header;
    var shown: seq<EvidenceItem> := [];
    var i := 0;
    while i < |items|
      invariant 0 <= i <= |items|
      invariant shown == items[..i] && lines == header + Lines(shown)
      invariant i >= 1 ==> |JoinLines(lines)| <= maxChars
    {
      var line := Line(items[i]);
      LineAdded(header, items, i);
      if |JoinLines(lines + [line])| > maxChars {
        break;
      }
      lines := lines + [line];
      shown := shown + [items[i]];
      i := i + 1;
    }
    RenderedFound(header, items, maxChars, i);
    r := Ok(Rendered(JoinLines(lines), shown));
  }

  /** The longest fitting prefix is unique, so `RenderedLongest` determines the rendering. */
  lemma RenderedUnique(header: seq<string>, items: seq<EvidenceItem>, maxChars: int, a: Rendered, b: Rendered)
    requires RenderedLongest(header, items, maxChars, a) && RenderedLongest(header, items, maxChars, b)
    ensures a == b
  {
    CutUnique(header, items, maxChars, |a.items|, |b.items|);
    CutUnique(header, items, maxChars, |b.items|, |a.items|);
    assert a.items == items[..|a.items|] == b.items;
  }

  lemma CutUnique(header: seq<string>, items: seq<EvidenceItem>, maxChars: int, n: nat, m: nat)
    requires n <= |items| && m <= |items|
    requires FitsUpTo(header, items, maxChars, n) && FitsUpTo(header, items, maxChars, m)
    ensures n <= m
  {
    if n >= 1 {
      var page := Page(header, items[..n]);
      assert |page| <= maxChars;
    }
  }

  // ---------------------------------------------------------------------
  // Quality
  // ---------------------------------------------------------------------

  /** Compared as Python compares the pair `(-source_count, precise)`. */
  datatype Quality = Quality(negatedCount: int, precise: int)

  const NEVER_GUIDED: Quality := Quality(-10000, -1)

  predicate Less(a: Quality, b: Quality) {
    a.negatedCount < b.negatedCount || (a.negatedCount == b.negatedCount && a.precise < b.precise)
  }

  function QualityOf(item: EvidenceItem): Quality {
    Quality(-(item.sourceCount as int), if item.toolName in PRECISE_EVIDENCE_TOOLS then 1 else 0)
  }

  function Recorded(quality: map<string, Quality>, id: string): Quality {
    if id in quality then quality[id] else NEVER_GUIDED
  }

  predicate Improves(quality: map<string, Quality>, item: EvidenceItem) {
    Less(Recorded(quality, item.evidenceId), QualityOf(item))
  }

  /** The items whose quality rose above the recorded one. */
  function Improving(quality: map<string, Quality>, items: seq<EvidenceItem>): seq<EvidenceItem> {
    if items == [] then []
    else
      var front, last := Improving(quality, items[..|items| - 1]), items[|items| - 1];
      if Improves(quality, last) then front + [last] else front
  }

  datatype Announcement = Announcement(id: string, quality: Quality)

  /** The guidance fields of a run, with the history of everything announced so far. */
  datatype State = State(guided: set<string>, quality: map<string, Quality>, messages: seq<string>,
                         history: seq<Announcement>)

  function RecordOne(s: State, item: EvidenceItem): State {
    s.(guided := s.guided + {item.evidenceId},
       quality := s.quality[item.evidenceId := QualityOf(item)],
       history := s.history + [Announcement(item.evidenceId, QualityOf(item))])
  }

  function RecordAll(s: State, items: seq<EvidenceItem>): State {
    if items == [] then s else RecordOne(RecordAll(s, items[..|items| - 1]), items[|items| - 1])
  }

  /** One call of `append_evidence_guidance`, given what is rendered. */
  ghost predicate Guided(w: Wording, s: State, items: seq<EvidenceItem>, citations: bool, decision: string,
                         next: State) {
    var candidates := Improving(s.quality, items);
    if candidates == [] then next == s
    else exists r :: RenderedLongest(w.header(citations), candidates, DEFAULT_MAX_GUIDANCE_CHARS, r)
                     && next == (if r.items == [] then s
                                 else var recorded := RecordAll(s, r.items);
                                      recorded.(messages := recorded.messages + [r.text + "\n\n" + decision]))
  }

  class GuidanceRun {
    var guided: set<string>
    var quality: map<string, Quality>
    var messages: seq<string>
    ghost var history: seq<Announcement>

    ghost function View(): State
      reads this
    {
      State(guided, quality, messages, history)
    }

    constructor ()
      ensures View() == State({}, map[], [], [])
    {
      guided, quality, messages, history := {}, map[], [], [];
    }

    /** The loop that notes every shown item. */
    method RecordShown(items: seq<EvidenceItem>)
      modifies this
      ensures View() == RecordAll(old(View()), items)
    {
      var i := 0;
      while i < |items|
        invariant 0 <= i <= |items|
        invariant View() == RecordAll(old(View()), items[..i])
      {
        assert items[..i + 1][..i] == items[..i];
        guided := guided + {items[i].evidenceId};
        quality := quality[items[i].evidenceId := QualityOf(items[i])];
        history := history + [Announcement(items[i].evidenceId, QualityOf(items[i]))];
        i := i + 1;
      }
      assert items[..i] == items;
    }

    /** `append_evidence_guidance`: `items` is the ledger of the outcomes so far, `decision` the closing lines. */
    method Append(w: Wording, items: seq<EvidenceItem>, citations: bool, decision: string)
      modifies this
      ensures Guided(w, old(View()), items, citations, decision, View())
    {
      var candidates: seq<EvidenceItem> := [];
      var k := 0;
      while k < |items|
        invariant 0 <= k <= |items|
        invariant candidates == Improving(quality, items[..k]) && View() == old(View())
      {
        assert items[..k + 1][..k] == items[..k];
        if Improves(quality, items[k]) {
          candidates := candidates + [items[k]];
        }
        k := k + 1;
      }
      assert items[..k] == items;
      if candidates == [] {
        return;
      }
      var rendered := RenderBounded(w, candidates, DEFAULT_MAX_GUIDANCE_CHARS, citations);
      var r := rendered.value;
      if r.items == [] {
        return;
      }
      RecordShown(r.items);
      messages := messages + [r.text + "\n\n" + decision];
    }
  }

  // ---------------------------------------------------------------------
  // One call
  // ---------------------------------------------------------------------

  ghost predicate DistinctIds(items: seq<EvidenceItem>) {
    forall i, j :: 0 <= i < j < |items| ==> items[i].evidenceId != items[j].evidenceId
  }

  predicate AllImprove(quality: map<string, Quality>, items: seq<EvidenceItem>) {
    forall i :: 0 <= i < |items| ==> Improves(quality, items[i])
  }

  ghost predicate CountsPositive(items: seq<EvidenceItem>) {
    forall i :: 0 <= i < |items| ==> items[i].sourceCount >= 1
  }

  lemma {:induction false} ImprovingMembers(quality: map<string, Quality>, items: seq<EvidenceItem>)
    ensures forall x :: x in Improving(quality, items) <==> x in items && Improves(quality, x)
  {
    if items != [] {
      ImprovingMembers(quality, items[..|items| - 1]);
      assert items == items[..|items| - 1] + [items[|items| - 1]];
    }
  }

  lemma {:induction false} ImprovingDistinct(quality: map<string, Quality>, items: seq<EvidenceItem>)
    requires DistinctIds(items)
    ensures DistinctIds(Improving(quality, items))
  {
    if items != [] {
      var front, last := items[..|items| - 1], items[|items| - 1];
      ImprovingDistinct(quality, front);
      ImprovingMembers(quality, front);
      var kept := Improving(quality, front);
      forall i | 0 <= i < |kept| ensures kept[i].evidenceId != last.evidenceId {
        assert kept[i] in front;
        var j :| 0 <= j < |front| && front[j] == kept[i];
        assert items[j] == kept[i];
      }
    }
  }

  /** What is offered for rendering: distinct ids, all of them improvements. */
  lemma ImprovingFacts(quality: map<string, Quality>, items: seq<EvidenceItem>)
    requires DistinctIds(items) && CountsPositive(items)
    ensures var c := Improving(quality, items); DistinctIds(c) && CountsPositive(c) && AllImprove(quality, c)
  {
    ImprovingDistinct(quality, items);
    ImprovingMembers(quality, items);
    var c := Improving(quality, items);
    forall i | 0 <= i < |c| ensures c[i].sourceCount >= 1 && Improves(quality, c[i]) {
      assert c[i] in c;
    }
  }

  ghost predicate HasId(items: seq<EvidenceItem>, id: string) {
    exists k :: 0 <= k < |items| && items[k].evidenceId == id
  }

  lemma {:induction false} OthersKeepTheirQuality(s: State, items: seq<EvidenceItem>, id: string)
    requires !HasId(items, id)
    ensures Recorded(RecordAll(s, items).quality, id) == Recorded(s.quality, id)
  {
    if items != [] {
      var front, last := items[..|items| - 1], items[|items| - 1];
      assert forall k :: 0 <= k < |front| ==> front[k] == items[k];
      OthersKeepTheirQuality(s, front, id);
      assert items[|items| - 1].evidenceId != id;
    }
  }

  // ---------------------------------------------------------------------
  // The invariant of a run
  // ---------------------------------------------------------------------

  /** The qualities announced for an id, in order. */
  function Announced(history: seq<Announcement>, id: string): seq<Quality> {
    if history == [] then []
    else
      var front, last := Announced(history[..|history| - 1], id), history[|history| - 1];
      if last.id == id then front + [last.quality] else front
  }

  predicate Rising(q: seq<Quality>) {
    forall k :: 0 <= k < |q| - 1 ==> Less(q[k], q[k + 1])
  }

  predicate Proper(q: Quality) {
    q.negatedCount <= -1 && 0 <= q.precise <= 1
  }

  /** The announcements of one id rise, and the last one is what is recorded. */
  ghost predicate IdOk(s: State, id: string) {
    var q := Announced(s.history, id);
    && Rising(q)
    && (forall k :: 0 <= k < |q| ==> Proper(q[k]))
    && (id in s.guided <==> q != [])
    && Recorded(s.quality, id) == (if q == [] then NEVER_GUIDED else q[|q| - 1])
  }

  ghost predicate Inv(s: State) {
    forall id :: IdOk(s, id)
  }

  lemma RisingAppend(q: seq<Quality>, x: Quality)
    requires Rising(q) && (q != [] ==> Less(q[|q| - 1], x))
    ensures Rising(q + [x])
  {
  }

  lemma RecordOneKeepsInv(s: State, item: EvidenceItem)
    requires Inv(s) && Improves(s.quality, item) && item.sourceCount >= 1
    ensures Inv(RecordOne(s, item))
  {
    var next := RecordOne(s, item);
    forall id ensures IdOk(next, id) {
      assert IdOk(s, id);
      assert next.history[..|next.history| - 1] == s.history;
      var q := Announced(s.history, id);
      if id == item.evidenceId {
        RisingAppend(q, QualityOf(item));
        assert Announced(next.history, id) == q + [QualityOf(item)];
      } else {
        assert Announced(next.history, id) == q;
      }
    }
  }

  lemma {:induction false} RecordAllKeepsInv(s: State, items: seq<EvidenceItem>)
    requires Inv(s) && AllImprove(s.quality, items) && DistinctIds(items) && CountsPositive(items)
    ensures Inv(RecordAll(s, items))
  {
    if items != [] {
      var front, last := items[..|items| - 1], items[|items| - 1];
      RecordAllKeepsInv(s, front);
      assert !HasId(front, last.evidenceId);
      OthersKeepTheirQuality(s, front, last.evidenceId);
      RecordOneKeepsInv(RecordAll(s, front), last);
    }
  }

  lemma {:induction false} MessagesDoNotMatter(s: State, messages: seq<string>)
    requires Inv(s)
    ensures Inv(s.(messages := messages))
  {
    forall id ensures IdOk(s.(messages := messages), id) {
      assert IdOk(s, id);
    }
  }

  lemma PrefixImproves(quality: map<string, Quality>, items: seq<EvidenceItem>, part: seq<EvidenceItem>)
    requires part <= items && AllImprove(quality, items) && DistinctIds(items) && CountsPositive(items)
    ensures AllImprove(quality, part) && DistinctIds(part) && CountsPositive(part)
  {
  }

  lemma GuidedKeepsInv(w: Wording, s: State, items: seq<EvidenceItem>, citations: bool, decision: string, next: State)
    requires Inv(s) && DistinctIds(items) && CountsPositive(items)
    requires Guided(w, s, items, citations, decision, next)
    ensures Inv(next)
  {
    var candidates := Improving(s.quality, items);
    ImprovingFacts(s.quality, items);
    if candidates != [] {
      var r :| RenderedLongest(w.header(citations), candidates, DEFAULT_MAX_GUIDANCE_CHARS, r)
               && next == (if r.items == [] then s
                           else var recorded := RecordAll(s, r.items);
                                recorded.(messages := recorded.messages + [r.text + "\n\n" + decision]));
      if r.items != [] {
        PrefixImproves(s.quality, candidates, r.items);
        RecordAllKeepsInv(s, r.items);
        var recorded := RecordAll(s, r.items);
        MessagesDoNotMatter(recorded, recorded.messages + [r.text + "\n\n" + decision]);
      }
    }
  }

  // ---------------------------------------------------------------------
  // Whole runs
  // ---------------------------------------------------------------------

  datatype Call = Call(items: seq<EvidenceItem>, citations: bool, decision: string)

  datatype Run = Run(states: seq<State>, calls: seq<Call>)

  ghost predicate StepOk(w: Wording, run: Run, k: nat)
    requires k < |run.calls| < |run.states|
  {
    Guided(w, run.states[k], run.calls[k].items, run.calls[k].citations, run.calls[k].decision, run.states[k + 1])
  }

  /** Any sequence of calls, each with a ledger whose ids are distinct. */
  ghost predicate IsRun(w: Wording, run: Run) {
    && |run.states| == |run.calls| + 1
    && run.states[0] == State({}, map[], [], [])
    && (forall k :: 0 <= k < |run.calls| ==> DistinctIds(run.calls[k].items) && CountsPositive(run.calls[k].items))
    && (forall k :: 0 <= k < |run.calls| ==> StepOk(w, run, k))
  }

  lemma {:induction false} RunKeepsInv(w: Wording, run: Run, k: nat)
    requires IsRun(w, run) && k <= |run.calls|
    ensures Inv(run.states[k])
  {
    if k == 0 {
      forall id ensures IdOk(run.states[0], id) {
      }
    } else {
      RunKeepsInv(w, run, k - 1);
      assert StepOk(w, run, k - 1);
      var c := run.calls[k - 1];
      GuidedKeepsInv(w, run.states[k - 1], c.items, c.citations, c.decision, run.states[k]);
    }
  }

  /** Falls with every announcement, and never below zero. */
  function Room(q: Quality): int {
    2 * (-q.negatedCount - 1) + (1 - q.precise)
  }

  lemma {:induction false} RisingIsShort(q: seq<Quality>)
    requires q != [] && Rising(q) && forall k :: 0 <= k < |q| ==> Proper(q[k])
    ensures |q| <= Room(q[0]) + 1
  {
    if |q| > 1 {
      assert Less(q[0], q[1]);
      assert Proper(q[0]) && Proper(q[1]);
      assert Room(q[1]) < Room(q[0]);
      forall k | 0 <= k < |q[1..]| - 1 ensures Less(q[1..][k], q[1..][k + 1]) {
        assert Less(q[k + 1], q[k + 2]);
      }
      RisingIsShort(q[1..]);
    }
  }

  /**
    Over any run, the announcements of one id have strictly rising quality, the last is the recorded one, and an id
    first announced with source count n (and precision p) is announced at most 2n - p times.
   */
  lemma AnnouncementsBounded(w: Wording, run: Run, k: nat, id: string)
    requires IsRun(w, run) && k <= |run.calls|
    ensures var q := Announced(run.states[k].history, id);
            && Rising(q)
            && (q != [] ==> |q| <= 2 * -q[0].negatedCount - q[0].precise)
            && (q != [] ==> Recorded(run.states[k].quality, id) == q[|q| - 1])
  {
    RunKeepsInv(w, run, k);
    var q := Announced(run.states[k].history, id);
    assert IdOk(run.states[k], id);
    if q != [] {
      RisingIsShort(q);
    }
  }

  lemma {:induction false} NoneImproving(quality: map<string, Quality>, items: seq<EvidenceItem>)
    requires forall x :: x in items ==> !Improves(quality, x)
    ensures Improving(quality, items) == []
  {
    if items != [] {
      var front := items[..|items| - 1];
      assert forall x :: x in front ==> x in items;
      NoneImproving(quality, front);
    }
  }

  /** A second call with the same ledger, once everything was shown, announces nothing. */
  lemma NothingNewNothingSaid(w: Wording, s: State, items: seq<EvidenceItem>, citations: bool, decision: string,
                              next: State)
    requires Guided(w, s, items, citations, decision, next) && DistinctIds(items) && CountsPositive(items)
    requires forall x :: x in items ==> !Improves(s.quality, x)
    ensures next == s
  {
    NoneImproving(s.quality, items);
  }

  /** No two of these keys have the same evidence id. */
  ghost predicate NoCollision(t: Texts, keys: set<string>) {
    forall a, b :: a in keys && b in keys && a != b ==> t.evidenceId(a) != t.evidenceId(b)
  }

  lemma IdsDiffer(t: Texts, outcomes: seq<ToolOutcome>, ranked: seq<Candidate>, c: Candidate, d: Candidate)
    requires IsLedger(Stream(t, NON_EVIDENCE_TOOLS, outcomes, |outcomes|), ranked)
    requires NoCollision(t, Keys(Stream(t, NON_EVIDENCE_TOOLS, outcomes, |outcomes|)))
    requires c in ranked && d in ranked && c != d
    ensures c.item.evidenceId != d.item.evidenceId
  {
    var stream := Stream(t, NON_EVIDENCE_TOOLS, outcomes, |outcomes|);
    StreamHasNoTies(t, NON_EVIDENCE_TOOLS, outcomes, |outcomes|);
    SelectedDiffer(stream, c, d);
    SelectedKeyIsIn(stream, c);
    SelectedKeyIsIn(stream, d);
    LedgerIds(t, NON_EVIDENCE_TOOLS, outcomes, ranked, c);
    LedgerIds(t, NON_EVIDENCE_TOOLS, outcomes, ranked, d);
  }

  /** The ledgers built from tool outcomes are such calls, when the ids of their keys do not collide. */
  lemma LedgerIsGuidable(t: Texts, outcomes: seq<ToolOutcome>, ranked: seq<Candidate>, maxItems: nat)
    requires IsLedger(Stream(t, NON_EVIDENCE_TOOLS, outcomes, |outcomes|), ranked)
    requires NoCollision(t, Keys(Stream(t, NON_EVIDENCE_TOOLS, outcomes, |outcomes|)))
    ensures var items := Items(First(ranked, maxItems)); DistinctIds(items) && CountsPositive(items)
  {
    var stream := Stream(t, NON_EVIDENCE_TOOLS, outcomes, |outcomes|);
    var cut := First(ranked, maxItems);
    forall i, j | 0 <= i < j < |cut| ensures Items(cut)[i].evidenceId != Items(cut)[j].evidenceId {
      assert RankedBefore(ranked[i], ranked[j]);
      IdsDiffer(t, outcomes, ranked, ranked[i], ranked[j]);
    }
    forall i | 0 <= i < |cut| ensures Items(cut)[i].sourceCount >= 1 {
      assert ranked[i] in ranked;
      StreamCounts(t, NON_EVIDENCE_TOOLS, outcomes, |outcomes|);
      SelectedCount(stream, ranked[i]);
    }
  }

  lemma SelectedCount(stream: seq<Candidate>, c: Candidate)
    requires Selected(stream, c) && forall x :: x in stream ==> x.item.sourceCount >= 1
    ensures c.item.sourceCount >= 1
  {
    var b :| 0 <= b < |stream| && stream[b].key == c.key && BestAt(stream, b)
             && c == stream[b].(firstSeen := FirstIndex(stream, c.key));
    assert stream[b] in stream;
  }

  lemma {:induction false} StreamCounts(t: Texts, nonEvidence: set<string>, outcomes: seq<ToolOutcome>, n: nat)
    requires n <= |outcomes|
    ensures forall c :: c in Stream(t, nonEvidence, outcomes, n) ==> c.item.sourceCount >= 1
  {
    if n > 0 {
      StreamCounts(t, nonEvidence, outcomes, n - 1);
      if Usable(nonEvidence, outcomes[n - 1]) {
        var sources := OutcomeSources(t, outcomes[n - 1]);
        OutcomeCounts(t, outcomes[n - 1], n - 1, sources, |sources|, |Stream(t, nonEvidence, outcomes, n - 1)|);
      }
    }
  }

  lemma {:induction false} OutcomeCounts(t: Texts, o: ToolOutcome, index: nat, sources: seq<string>, n: nat, seen: nat)
    requires n <= |sources|
    ensures forall c :: c in OutcomeCandidates(t, o, index, sources, n, seen) ==> c.item.sourceCount >= 1
  {
    if n > 0 {
      OutcomeCounts(t, o, index, sources, n - 1, seen);
    }
  }
}
