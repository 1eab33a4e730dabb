/** The evidence ledger: one item per source, built in one pass over the tool outcomes. */
module EvidenceLedger {
  import opened Collections
  import opened Wrappers
  import opened PySort

  datatype ToolStatus = StatusOk | StatusEmpty | StatusError

  datatype ToolOutcome = ToolOutcome(
    toolName: string, status: ToolStatus, blankContent: bool, content: string, provenance: seq<string>,
      arguments: string)

  /**
    The text functions the ledger is built from: cleaning a provenance URL, normalising it (None when it is not a
    web URL), the key of other sources, the pseudo-source of a tool result, the excerpt for a source, and the
    evidence id (a hash of the key).
   */
  datatype Texts = Texts(
    clean: string -> string, normalize: string -> Option<string>, otherKey: string -> string,
    toolSource: (string, string) -> string, excerpt: (string, string) -> string, evidenceId: string -> string)

  const NON_EVIDENCE_TOOLS: set<string> := {"reminder", "report_issue", "send_msg"}

  datatype EvidenceItem = EvidenceItem(evidenceId: string, toolName: string, source: string, excerpt: string,
                                       sourceCount: nat)

  datatype Candidate = Candidate(key: string, item: EvidenceItem, sourceCount: nat, firstSeen: nat, outcomeIndex: nat)

  function SourceKey(t: Texts, source: string): string {
    var n := t.normalize(source);
    if n.Some? then n.value else t.otherKey(source)
  }

  predicate Usable(nonEvidence: set<string>, o: ToolOutcome) {
    o.toolName !in nonEvidence && o.status == StatusOk && !o.blankContent
  }

  // ---------------------------------------------------------------------
  // The candidate stream
  // ---------------------------------------------------------------------

  /** The cleaned web URLs of a provenance list, the first of each normal form. */
  function UrlSources(t: Texts, provenance: seq<string>): seq<string> {
    if provenance == [] then []
    else
      var front := UrlSources(t, provenance[..|provenance| - 1]);
      var cleaned := t.clean(provenance[|provenance| - 1]);
      var n := t.normalize(cleaned);
      if n.None? || n.value in NormalForms(t, front) then front else front + [cleaned]
  }

  function NormalForms(t: Texts, sources: seq<string>): set<string> {
    set s | s in sources && t.normalize(s).Some? :: t.normalize(s).value
  }

  function OutcomeSources(t: Texts, o: ToolOutcome): seq<string> {
    var urls := UrlSources(t, o.provenance);
    if urls != [] then urls else [t.toolSource(o.toolName, o.arguments)]
  }

  function CandidateOf(t: Texts, o: ToolOutcome, index: nat, source: string, count: nat, seen: nat): Candidate {
    Candidate(SourceKey(t, source),
              EvidenceItem(t.evidenceId(SourceKey(t, source)), o.toolName, source, t.excerpt(o.content, source), count),
              count, seen, index)
  }

  /** The candidates of the first `n` sources of one outcome; sources with an empty key are skipped. */
  function OutcomeCandidates(t: Texts, o: ToolOutcome, index: nat, sources: seq<string>, n: nat,
                             seen: nat): seq<Candidate>
    requires n <= |sources|
  {
    if n == 0 then []
    else
      var front := OutcomeCandidates(t, o, index, sources, n - 1, seen);
      if SourceKey(t, sources[n - 1]) == [] then front
      else front + [CandidateOf(t, o, index, sources[n - 1], |sources|, seen + |front|)]
  }

  /** Every candidate of the usable outcomes among the first `n`, in discovery order. */
  function Stream(t: Texts, nonEvidence: set<string>, outcomes: seq<ToolOutcome>, n: nat): seq<Candidate>
    requires n <= |outcomes|
  {
    if n == 0 then []
    else
      var front := Stream(t, nonEvidence, outcomes, n - 1);
      var o := outcomes[n - 1];
      if !Usable(nonEvidence, o) then front
      else
        var sources := OutcomeSources(t, o);
        front + OutcomeCandidates(t, o, n - 1, sources, |sources|, |front|)
  }

  // ---------------------------------------------------------------------
  // The declarative selection
  // ---------------------------------------------------------------------

  /** Fewer sources first, then the newer outcome. */
  predicate Better(a: Candidate, b: Candidate) {
    a.sourceCount < b.sourceCount || (a.sourceCount == b.sourceCount && a.outcomeIndex > b.outcomeIndex)
  }

  function FirstIndex(stream: seq<Candidate>, key: string): nat {
    if stream == [] || stream[0].key == key then 0 else 1 + FirstIndex(stream[1..], key)
  }

  function Keys(stream: seq<Candidate>): set<string> {
    set c | c in stream :: c.key
  }

  /** `c` is the best candidate for its key, placed where the key was first seen. */
  ghost predicate Selected(stream: seq<Candidate>, c: Candidate) {
    exists b :: 0 <= b < |stream| && stream[b].key == c.key && BestAt(stream, b)
                && c == stream[b].(firstSeen := FirstIndex(stream, c.key))
  }

  ghost predicate BestAt(stream: seq<Candidate>, b: nat)
    requires b < |stream|
  {
    forall j :: 0 <= j < |stream| && stream[j].key == stream[b].key ==> !Better(stream[j], stream[b])
  }

  predicate RankedBefore(a: Candidate, b: Candidate) {
    a.sourceCount < b.sourceCount || (a.sourceCount == b.sourceCount && a.firstSeen < b.firstSeen)
  }

  /** The ledger before it is cut: each key's best candidate, ordered by source count and first appearance. */
  ghost predicate IsLedger(stream: seq<Candidate>, ranked: seq<Candidate>) {
    && (forall c :: c in ranked ==> Selected(stream, c))
    && (forall key :: key in Keys(stream) ==> exists c :: c in ranked && c.key == key)
    && StrictlyOrdered(RankedBefore, ranked)
  }

  lemma {:induction false} FirstIndexFinds(stream: seq<Candidate>, key: string)
    requires key in Keys(stream)
    ensures FirstIndex(stream, key) < |stream| && stream[FirstIndex(stream, key)].key == key
  {
    if stream[0].key != key {
      assert stream == [stream[0]] + stream[1..];
      FirstIndexFinds(stream[1..], key);
    }
  }

  lemma {:induction false} FirstIndexAppend(stream: seq<Candidate>, c: Candidate, key: string)
    ensures FirstIndex(stream + [c], key)
         == if key in Keys(stream) then FirstIndex(stream, key) else if c.key == key then |stream| else |stream| + 1
  {
    if stream == [] {
      assert stream + [c] == [c];
    } else {
      assert stream == [stream[0]] + stream[1..];
      assert Keys(stream) == {stream[0].key} + Keys(stream[1..]);
      if stream[0].key != key {
        FirstIndexAppend(stream[1..], c, key);
        assert (stream + [c])[1..] == stream[1..] + [c];
      }
    }
  }

  // ---------------------------------------------------------------------
  // The one-pass dictionary
  // ---------------------------------------------------------------------

  /** The dictionary and its insertion order. */
  ghost predicate LedgerMap(stream: seq<Candidate>, order: seq<string>, candidates: map<string, Candidate>) {
    InOrder(order, candidates) && EntriesOk(stream, candidates)
  }

  ghost predicate InOrder(order: seq<string>, candidates: map<string, Candidate>) {
    Distinct(order) && forall key :: key in order <==> key in candidates
  }

  ghost predicate EntriesOk(stream: seq<Candidate>, candidates: map<string, Candidate>) {
    && candidates.Keys == Keys(stream)
    && forall key :: key in candidates ==> EntryOk(stream, key, candidates[key])
  }

  ghost predicate EntryOk(stream: seq<Candidate>, key: string, c: Candidate) {
    c.key == key && Selected(stream, c)
  }

  lemma KeysAppend(stream: seq<Candidate>, c: Candidate)
    ensures Keys(stream + [c]) == Keys(stream) + {c.key}
  {
    assert (stream + [c])[|stream|] == c;
    forall x | x in Keys(stream) ensures x in Keys(stream + [c]) {
      var d :| d in stream && d.key == x;
      assert d in stream + [c];
    }
  }

  lemma SelectedKept(stream: seq<Candidate>, best: Candidate, c: Candidate)
    requires Selected(stream, best)
    requires c.key == best.key ==> !Better(c, best)
    ensures Selected(stream + [c], best)
  {
    var b :| 0 <= b < |stream| && stream[b].key == best.key && BestAt(stream, b)
             && best == stream[b].(firstSeen := FirstIndex(stream, best.key));
    var all := stream + [c];
    assert stream[b] in stream;
    FirstIndexAppend(stream, c, best.key);
    forall j | 0 <= j < |all| && all[j].key == all[b].key ensures !Better(all[j], all[b]) {
      if j < |stream| {
        assert all[j] == stream[j];
      }
    }
    assert BestAt(all, b);
  }

  lemma SelectedNew(stream: seq<Candidate>, c: Candidate)
    requires c.key !in Keys(stream) && c.firstSeen == |stream|
    ensures Selected(stream + [c], c)
  {
    var all := stream + [c];
    FirstIndexAppend(stream, c, c.key);
    assert forall j :: 0 <= j < |stream| ==> all[j].key != c.key;
    assert all[|stream|] == c && BestAt(all, |stream|);
  }

  lemma SelectedReplaced(stream: seq<Candidate>, best: Candidate, c: Candidate)
    requires Selected(stream, best) && best.key == c.key && Better(c, best)
    ensures Selected(stream + [c], c.(firstSeen := best.firstSeen))
  {
    var b :| 0 <= b < |stream| && stream[b].key == best.key && BestAt(stream, b)
             && best == stream[b].(firstSeen := FirstIndex(stream, best.key));
    var all := stream + [c];
    assert stream[b] in stream;
    FirstIndexAppend(stream, c, c.key);
    forall j | 0 <= j < |all| && all[j].key == c.key ensures !Better(all[j], c) {
    }
    assert all[|stream|] == c && BestAt(all, |stream|);
  }

  /** What one candidate does to the dictionary. */
  function Store(candidates: map<string, Candidate>, c: Candidate): map<string, Candidate> {
    if c.key !in candidates then candidates[c.key := c]
    else if Better(c, candidates[c.key]) then candidates[c.key := c.(firstSeen := candidates[c.key].firstSeen)]
    else candidates
  }

  lemma EntriesKept(stream: seq<Candidate>, candidates: map<string, Candidate>, c: Candidate, key: string)
    requires EntriesOk(stream, candidates) && key in candidates
    requires key == c.key ==> !Better(c, candidates[key])
    ensures EntryOk(stream + [c], key, candidates[key])
  {
    assert EntryOk(stream, key, candidates[key]);
    SelectedKept(stream, candidates[key], c);
  }

  lemma EntryStored(stream: seq<Candidate>, candidates: map<string, Candidate>, c: Candidate)
    requires EntriesOk(stream, candidates) && c.firstSeen == |stream|
    ensures EntryOk(stream + [c], c.key, Store(candidates, c)[c.key])
  {
    if c.key !in candidates {
      SelectedNew(stream, c);
    } else if Better(c, candidates[c.key]) {
      assert EntryOk(stream, c.key, candidates[c.key]);
      SelectedReplaced(stream, candidates[c.key], c);
    } else {
      EntriesKept(stream, candidates, c, c.key);
    }
  }

  lemma EntriesStep(stream: seq<Candidate>, candidates: map<string, Candidate>, c: Candidate)
    requires EntriesOk(stream, candidates) && c.firstSeen == |stream|
    ensures EntriesOk(stream + [c], Store(candidates, c))
  {
    KeysAppend(stream, c);
    var stored := Store(candidates, c);
    assert stored.Keys == candidates.Keys + {c.key};
    EntryStored(stream, candidates, c);
    forall key | key in stored && key != c.key ensures EntryOk(stream + [c], key, stored[key]) {
      EntriesKept(stream, candidates, c, key);
    }
  }

  function Ordering(order: seq<string>, candidates: map<string, Candidate>, c: Candidate): seq<string> {
    if c.key in candidates then order else order + [c.key]
  }

  /** One turn of the inner loop. */
  lemma LedgerMapStep(stream: seq<Candidate>, order: seq<string>, candidates: map<string, Candidate>, c: Candidate)
    requires LedgerMap(stream, order, candidates) && c.firstSeen == |stream|
    ensures LedgerMap(stream + [c], Ordering(order, candidates, c), Store(candidates, c))
  {
    EntriesStep(stream, candidates, c);
  }

  // ---------------------------------------------------------------------
  // Sorting and cutting
  // ---------------------------------------------------------------------

  ghost predicate ValuesOf(order: seq<string>, candidates: map<string, Candidate>, values: seq<Candidate>) {
    |values| == |order| && forall i :: 0 <= i < |order| ==> order[i] in candidates && values[i] == candidates[order[i]]
  }

  function Values(order: seq<string>, candidates: map<string, Candidate>): (values: seq<Candidate>)
    requires forall key :: key in order ==> key in candidates
    ensures ValuesOf(order, candidates, values)
  {
    seq(|order|, i requires 0 <= i < |order| => candidates[order[i]])
  }

  /** Different keys were first seen at different places. */
  lemma FirstSeenDiffers(stream: seq<Candidate>, a: Candidate, b: Candidate)
    requires Selected(stream, a) && Selected(stream, b) && a.key != b.key
    ensures a.firstSeen != b.firstSeen
  {
    var i :| 0 <= i < |stream| && stream[i].key == a.key && BestAt(stream, i)
             && a == stream[i].(firstSeen := FirstIndex(stream, a.key));
    var j :| 0 <= j < |stream| && stream[j].key == b.key && BestAt(stream, j)
             && b == stream[j].(firstSeen := FirstIndex(stream, b.key));
    assert stream[i] in stream && stream[j] in stream;
    FirstIndexFinds(stream, a.key);
    FirstIndexFinds(stream, b.key);
  }

  lemma SortedIsLedger(stream: seq<Candidate>, order: seq<string>, candidates: map<string, Candidate>,
                       values: seq<Candidate>)
    requires LedgerMap(stream, order, candidates) && ValuesOf(order, candidates, values)
    ensures IsLedger(stream, Sort(RankedBefore, values))
  {
    forall i | 0 <= i < |values| ensures values[i].key == order[i] && Selected(stream, values[i]) {
      assert order[i] in candidates;
    }
    forall i, j | 0 <= i < |values| && 0 <= j < |values| && i != j
      ensures values[i] != values[j] && (RankedBefore(values[i], values[j]) || RankedBefore(values[j], values[i]))
    {
      assert values[i].key == order[i] && values[j].key == order[j];
      assert order[i] != order[j] by {
        if i < j { assert order[i] != order[j]; } else { assert order[j] != order[i]; }
      }
      FirstSeenDiffers(stream, values[i], values[j]);
    }
    SortMembers(RankedBefore, values);
    SortStrict(RankedBefore, values);
    forall key | key in Keys(stream) ensures exists c :: c in Sort(RankedBefore, values) && c.key == key {
      assert key in order;
      var k :| 0 <= k < |order| && order[k] == key;
      assert values[k] in Sort(RankedBefore, values);
    }
  }

  function Items(ranked: seq<Candidate>): (items: seq<EvidenceItem>)
    ensures |items| == |ranked| && forall i :: 0 <= i < |items| ==> items[i] == ranked[i].item
  {
    seq(|ranked|, i requires 0 <= i < |ranked| => ranked[i].item)
  }

  /** `_outcome_sources`. */
  method CollectSources(t: Texts, o: ToolOutcome) returns (sources: seq<string>)
    ensures sources == OutcomeSources(t, o)
  {
    sources := [];
    var seen: set<string> := {};
    var i := 0;
    while i < |o.provenance|
      invariant 0 <= i <= |o.provenance|
      invariant sources == UrlSources(t, o.provenance[..i]) && seen == NormalForms(t, sources)
    {
      var cleaned := t.clean(o.provenance[i]);
      var normalized := t.normalize(cleaned);
      assert o.provenance[..i + 1][..i] == o.provenance[..i];
      i := i + 1;
      if normalized.None? || normalized.value in seen {
        continue;
      }
      seen := seen + {normalized.value};
      sources := sources + [cleaned];
    }
    assert o.provenance[..i] == o.provenance;
    if sources == [] {
      sources := [t.toolSource(o.toolName, o.arguments)];
    }
  }

  /** The candidates seen before an outcome, followed by those of its first `n` sources. */
  ghost function StreamWith(t: Texts, o: ToolOutcome, index: nat, n: nat, stream: seq<Candidate>): seq<Candidate>
    requires n <= |OutcomeSources(t, o)|
  {
    stream + OutcomeCandidates(t, o, index, OutcomeSources(t, o), n, |stream|)
  }

  lemma StreamWithStep(t: Texts, o: ToolOutcome, index: nat, n: nat, stream: seq<Candidate>)
    requires n < |OutcomeSources(t, o)|
    ensures var sources, s := OutcomeSources(t, o), StreamWith(t, o, index, n, stream);
            StreamWith(t, o, index, n + 1, stream)
            == if SourceKey(t, sources[n]) == [] then s else s + [CandidateOf(t, o, index, sources[n], |sources|, |s|)]
  {
    var sources := OutcomeSources(t, o);
    var front := OutcomeCandidates(t, o, index, sources, n, |stream|);
    var c := CandidateOf(t, o, index, sources[n], |sources|, |stream| + |front|);
    assert stream + (front + [c]) == (stream + front) + [c];
  }

  /** The inner loop of `from_outcomes`: one usable outcome enters the dictionary. */
  method AddOutcome(t: Texts, o: ToolOutcome, index: nat, ghost stream: seq<Candidate>, order0: seq<string>,
                    candidates0: map<string, Candidate>, discovered0: nat)
    returns (order: seq<string>, candidates: map<string, Candidate>, discovered: nat)
    requires LedgerMap(stream, order0, candidates0) && discovered0 == |stream|
    ensures var all := StreamWith(t, o, index, |OutcomeSources(t, o)|, stream);
            LedgerMap(all, order, candidates) && discovered == |all|
  {
    order, candidates, discovered := order0, candidates0, discovered0;
    var sources := CollectSources(t, o);
    var i := 0;
    assert stream + [] == stream;
    while i < |sources|
      invariant 0 <= i <= |sources|
      invariant discovered == |StreamWith(t, o, index, i, stream)|
      invariant LedgerMap(StreamWith(t, o, index, i, stream), order, candidates)
    {
      var source := sources[i];
      var key := SourceKey(t, source);
      ghost var before := StreamWith(t, o, index, i, stream);
      StreamWithStep(t, o, index, i, stream);
      i := i + 1;
      if key == [] {
        continue;
      }
      var candidate := CandidateOf(t, o, index, source, |sources|, discovered);
      LedgerMapStep(before, order, candidates, candidate);
      discovered := discovered + 1;
      order, candidates := Offer(order, candidates, candidate);
    }
  }

  /** A candidate is stored when its key is new, or when it is better than the stored one, whose place it then takes. */
  method Offer(order0: seq<string>, candidates0: map<string, Candidate>, candidate: Candidate)
    returns (order: seq<string>, candidates: map<string, Candidate>)
    ensures order == Ordering(order0, candidates0, candidate) && candidates == Store(candidates0, candidate)
  {
    order, candidates := order0, candidates0;
    var key := candidate.key;
    if key !in candidates {
      order := order + [key];
      candidates := candidates[key := candidate];
    } else if Better(candidate, candidates[key]) {
      candidates := candidates[key := candidate.(firstSeen := candidates[key].firstSeen)];
    }
  }

  /** The outer loop of `from_outcomes`. */
  method CollectCandidates(t: Texts, nonEvidence: set<string>, outcomes: seq<ToolOutcome>)
    returns (order: seq<string>, candidates: map<string, Candidate>)
    ensures LedgerMap(Stream(t, nonEvidence, outcomes, |outcomes|), order, candidates)
  {
    var discovered := 0;
    order, candidates := [], map[];
    var n := 0;
    while n < |outcomes|
      invariant 0 <= n <= |outcomes|
      invariant LedgerMap(Stream(t, nonEvidence, outcomes, n), order, candidates)
      invariant discovered == |Stream(t, nonEvidence, outcomes, n)|
    {
      ghost var stream := Stream(t, nonEvidence, outcomes, n);
      if Usable(nonEvidence, outcomes[n]) {
        order, candidates, discovered := AddOutcome(t, outcomes[n], n, stream, order, candidates, discovered);
      }
      n := n + 1;
    }
  }

  /** `EvidenceLedger.from_outcomes`: the one pass computes the declarative ledger, cut to `maxItems`. */
  method FromOutcomes(t: Texts, outcomes: seq<ToolOutcome>, maxItems: int, maxExcerptChars: int)
    returns (ledger: Result<seq<EvidenceItem>, string>, ghost ranked: seq<Candidate>)
    ensures ledger.Err? <==> maxItems < 1 || maxExcerptChars < 40
    ensures ledger.Ok? ==> IsLedger(Stream(t, NON_EVIDENCE_TOOLS, outcomes, |outcomes|), ranked)
    ensures ledger.Ok? ==> ledger.value == Items(First(ranked, maxItems))
  {
    ranked := [];
    if maxItems < 1 {
      return Err("max_items"), ranked;
    }
    if maxExcerptChars < 40 {
      return Err("max_excerpt_chars"), ranked;
    }
    var order, candidates := CollectCandidates(t, NON_EVIDENCE_TOOLS, outcomes);
    var values := Values(order, candidates);
    SortedIsLedger(Stream(t, NON_EVIDENCE_TOOLS, outcomes, |outcomes|), order, candidates, values);
    var sorted := Sort(RankedBefore, values);
    ranked := sorted;
    ledger := Ok(Items(First(sorted, maxItems)));
  }

  // ---------------------------------------------------------------------
  // The selection is unique
  // ---------------------------------------------------------------------

  /** Within one outcome no key comes twice, so two candidates for a key never tie. */
  ghost predicate NoTies(stream: seq<Candidate>) {
    forall i, j :: 0 <= i < j < |stream| && stream[i].key == stream[j].key ==>
      stream[i].outcomeIndex != stream[j].outcomeIndex
  }

  ghost predicate DistinctForms(t: Texts, urls: seq<string>) {
    && (forall i :: 0 <= i < |urls| ==> t.normalize(urls[i]).Some?)
    && (forall i, j :: 0 <= i < j < |urls| ==> t.normalize(urls[i]) != t.normalize(urls[j]))
  }

  lemma DistinctFormsAppend(t: Texts, front: seq<string>, url: string)
    requires DistinctForms(t, front) && t.normalize(url).Some? && t.normalize(url).value !in NormalForms(t, front)
    ensures DistinctForms(t, front + [url])
  {
    forall i | 0 <= i < |front| ensures t.normalize(front[i]) != t.normalize(url) {
      assert front[i] in front && t.normalize(front[i]).Some?;
      assert t.normalize(front[i]).value in NormalForms(t, front);
    }
  }

  lemma {:induction false} UrlSourcesDistinct(t: Texts, provenance: seq<string>)
    ensures DistinctForms(t, UrlSources(t, provenance))
  {
    if provenance != [] {
      var front := UrlSources(t, provenance[..|provenance| - 1]);
      var cleaned := t.clean(provenance[|provenance| - 1]);
      UrlSourcesDistinct(t, provenance[..|provenance| - 1]);
      if t.normalize(cleaned).Some? && t.normalize(cleaned).value !in NormalForms(t, front) {
        DistinctFormsAppend(t, front, cleaned);
      }
    }
  }

  ghost predicate DistinctKeys(t: Texts, sources: seq<string>) {
    forall i, j :: 0 <= i < j < |sources| ==> SourceKey(t, sources[i]) != SourceKey(t, sources[j])
  }

  lemma OutcomeKeysDistinct(t: Texts, o: ToolOutcome)
    ensures DistinctKeys(t, OutcomeSources(t, o))
  {
    UrlSourcesDistinct(t, o.provenance);
  }

  /** `c` was made from one of the first `n` sources. */
  ghost predicate MadeFrom(t: Texts, sources: seq<string>, n: nat, c: Candidate)
    requires n <= |sources|
  {
    exists k :: 0 <= k < n && c.key == SourceKey(t, sources[k])
  }

  /** One outcome's candidates carry its index, and no two share a key. */
  ghost predicate OneOutcome(t: Texts, sources: seq<string>, n: nat, index: nat, cs: seq<Candidate>)
    requires n <= |sources|
  {
    && (forall i :: 0 <= i < |cs| ==> cs[i].outcomeIndex == index && MadeFrom(t, sources, n, cs[i]))
    && (forall i, j :: 0 <= i < j < |cs| ==> cs[i].key != cs[j].key)
  }

  lemma {:induction false} OutcomeCandidatesFacts(t: Texts, o: ToolOutcome, index: nat, sources: seq<string>, n: nat,
                                                  seen: nat)
    requires n <= |sources| && DistinctKeys(t, sources)
    ensures OneOutcome(t, sources, n, index, OutcomeCandidates(t, o, index, sources, n, seen))
  {
    if n > 0 {
      OutcomeCandidatesFacts(t, o, index, sources, n - 1, seen);
      var front := OutcomeCandidates(t, o, index, sources, n - 1, seen);
      var c := CandidateOf(t, o, index, sources[n - 1], |sources|, seen + |front|);
      forall i | 0 <= i < |front| ensures MadeFrom(t, sources, n, front[i]) {
        assert (front + [c])[i] == front[i];
      }
    }
  }

  ghost predicate IndexesBelow(stream: seq<Candidate>, n: nat) {
    forall i :: 0 <= i < |stream| ==> stream[i].outcomeIndex < n
  }

  lemma {:induction false} StreamHasNoTies(t: Texts, nonEvidence: set<string>, outcomes: seq<ToolOutcome>, n: nat)
    requires n <= |outcomes|
    ensures NoTies(Stream(t, nonEvidence, outcomes, n)) && IndexesBelow(Stream(t, nonEvidence, outcomes, n), n)
  {
    if n > 0 {
      StreamHasNoTies(t, nonEvidence, outcomes, n - 1);
      if Usable(nonEvidence, outcomes[n - 1]) {
        OutcomeKeysDistinct(t, outcomes[n - 1]);
        var front, sources := Stream(t, nonEvidence, outcomes, n - 1), OutcomeSources(t, outcomes[n - 1]);
        OutcomeCandidatesFacts(t, outcomes[n - 1], n - 1, sources, |sources|, |front|);
      }
    }
  }

  lemma SelectedUnique(stream: seq<Candidate>, a: Candidate, b: Candidate)
    requires NoTies(stream) && Selected(stream, a) && Selected(stream, b) && a.key == b.key
    ensures a == b
  {
    var i :| 0 <= i < |stream| && stream[i].key == a.key && BestAt(stream, i)
             && a == stream[i].(firstSeen := FirstIndex(stream, a.key));
    var j :| 0 <= j < |stream| && stream[j].key == b.key && BestAt(stream, j)
             && b == stream[j].(firstSeen := FirstIndex(stream, b.key));
    assert !Better(stream[i], stream[j]) && !Better(stream[j], stream[i]);
  }

  lemma LedgerMembers(stream: seq<Candidate>, a: seq<Candidate>, b: seq<Candidate>)
    requires NoTies(stream) && IsLedger(stream, a) && IsLedger(stream, b)
    ensures forall c :: c in a ==> c in b
  {
    forall c | c in a ensures c in b {
      assert Selected(stream, c);
      var i :| 0 <= i < |stream| && stream[i].key == c.key && BestAt(stream, i)
               && c == stream[i].(firstSeen := FirstIndex(stream, c.key));
      assert stream[i] in stream;
      assert c.key in Keys(stream);
      var d :| d in b && d.key == c.key;
      SelectedUnique(stream, c, d);
    }
  }

  /** The declarative description leaves no choice: there is exactly one ledger for a list of outcomes. */
  lemma LedgerUnique(t: Texts, nonEvidence: set<string>, outcomes: seq<ToolOutcome>, a: seq<Candidate>,
                     b: seq<Candidate>)
    requires IsLedger(Stream(t, nonEvidence, outcomes, |outcomes|), a)
    requires IsLedger(Stream(t, nonEvidence, outcomes, |outcomes|), b)
    ensures a == b
  {
    StreamHasNoTies(t, nonEvidence, outcomes, |outcomes|);
    var stream := Stream(t, nonEvidence, outcomes, |outcomes|);
    LedgerMembers(stream, a, b);
    LedgerMembers(stream, b, a);
    StrictlyOrderedUnique(RankedBefore, a, b);
  }

  // ---------------------------------------------------------------------
  // Appending outcomes
  // ---------------------------------------------------------------------

  lemma {:induction false} StreamOfPrefix(t: Texts, nonEvidence: set<string>, older: seq<ToolOutcome>,
                                          newer: seq<ToolOutcome>, n: nat)
    requires |older| <= n <= |older| + |newer|
    ensures Stream(t, nonEvidence, older, |older|) <= Stream(t, nonEvidence, older + newer, n)
  {
    if n > |older| {
      StreamOfPrefix(t, nonEvidence, older, newer, n - 1);
    } else {
      StreamAgrees(t, nonEvidence, older, newer, n);
    }
  }

  lemma {:induction false} StreamAgrees(t: Texts, nonEvidence: set<string>, older: seq<ToolOutcome>,
                                        newer: seq<ToolOutcome>, n: nat)
    requires n <= |older|
    ensures Stream(t, nonEvidence, older, n) == Stream(t, nonEvidence, older + newer, n)
  {
    if n > 0 {
      StreamAgrees(t, nonEvidence, older, newer, n - 1);
    }
  }

  /** A longer stream can only improve the candidate selected for a key. */
  lemma SelectedSharpens(s: seq<Candidate>, all: seq<Candidate>, c: Candidate, d: Candidate)
    requires s <= all && Selected(s, c) && Selected(all, d) && c.key == d.key
    ensures d.sourceCount <= c.sourceCount && d.firstSeen == c.firstSeen
  {
    var b :| 0 <= b < |s| && s[b].key == c.key && BestAt(s, b) && c == s[b].(firstSeen := FirstIndex(s, c.key));
    var j :| 0 <= j < |all| && all[j].key == d.key && BestAt(all, j)
      && d == all[j].(firstSeen := FirstIndex(all, d.key));
    assert all[b] == s[b];
    FirstIndexOfPrefix(s, all, c.key);
  }

  lemma SelectedKeyIsIn(stream: seq<Candidate>, c: Candidate)
    requires Selected(stream, c)
    ensures c.key in Keys(stream)
  {
    var b :| 0 <= b < |stream| && stream[b].key == c.key && BestAt(stream, b)
             && c == stream[b].(firstSeen := FirstIndex(stream, c.key));
  }

  lemma KeysOfPrefix(s: seq<Candidate>, all: seq<Candidate>)
    requires s <= all
    ensures Keys(s) <= Keys(all)
  {
    forall k | k in Keys(s) ensures k in Keys(all) {
      var i :| 0 <= i < |s| && s[i].key == k;
    }
  }

  /** More outcomes only sharpen a key: it keeps its place of first appearance and its source count never rises. */
  lemma AppendingSharpens(t: Texts, nonEvidence: set<string>, older: seq<ToolOutcome>, newer: seq<ToolOutcome>,
                          before: seq<Candidate>, after: seq<Candidate>, c: Candidate)
    requires IsLedger(Stream(t, nonEvidence, older, |older|), before)
    requires IsLedger(Stream(t, nonEvidence, older + newer, |older + newer|), after)
    requires c in before
    ensures exists d :: d in after && d.key == c.key && d.sourceCount <= c.sourceCount && d.firstSeen == c.firstSeen
  {
    var s, all := Stream(t, nonEvidence, older, |older|), Stream(t, nonEvidence, older + newer, |older + newer|);
    StreamOfPrefix(t, nonEvidence, older, newer, |older + newer|);
    SelectedKeyIsIn(s, c);
    KeysOfPrefix(s, all);
    var d :| d in after && d.key == c.key;
    SelectedSharpens(s, all, c, d);
  }

  lemma {:induction false} FirstIndexOfPrefix(s: seq<Candidate>, all: seq<Candidate>, key: string)
    requires s <= all && key in Keys(s)
    ensures FirstIndex(s, key) == FirstIndex(all, key)
  {
    if s[0].key != key {
      assert s == [s[0]] + s[1..];
      FirstIndexOfPrefix(s[1..], all[1..], key);
    }
  }

  /** A selected candidate's item carries the id of its key. */
  lemma {:induction false} StreamIds(t: Texts, nonEvidence: set<string>, outcomes: seq<ToolOutcome>, n: nat)
    requires n <= |outcomes|
    ensures forall c :: c in Stream(t, nonEvidence, outcomes, n) ==> c.item.evidenceId == t.evidenceId(c.key)
  {
    if n > 0 {
      StreamIds(t, nonEvidence, outcomes, n - 1);
      if Usable(nonEvidence, outcomes[n - 1]) {
        var sources := OutcomeSources(t, outcomes[n - 1]);
        OutcomeIds(t, outcomes[n - 1], n - 1, sources, |sources|, |Stream(t, nonEvidence, outcomes, n - 1)|);
      }
    }
  }

  lemma {:induction false} OutcomeIds(t: Texts, o: ToolOutcome, index: nat, sources: seq<string>, n: nat, seen: nat)
    requires n <= |sources|
    ensures forall c :: c in OutcomeCandidates(t, o, index, sources, n, seen) ==>
      c.item.evidenceId == t.evidenceId(c.key)
  {
    if n > 0 {
      OutcomeIds(t, o, index, sources, n - 1, seen);
    }
  }

  lemma {:induction false} LedgerSize(stream: seq<Candidate>, ranked: seq<Candidate>)
    requires NoTies(stream) && (forall c :: c in ranked ==> Selected(stream, c))
      && StrictlyOrdered(RankedBefore, ranked)
    ensures |ranked| <= |Keys(stream)|
  {
    KeysOfRanked(stream, ranked);
    var keys := Keys(ranked);
    forall k | k in keys ensures k in Keys(stream) {
      var c :| c in ranked && c.key == k;
      SelectedKeyIsIn(stream, c);
    }
    assert Keys(stream) == keys + (Keys(stream) - keys);
  }

  lemma SelectedDiffer(stream: seq<Candidate>, a: Candidate, b: Candidate)
    requires NoTies(stream) && Selected(stream, a) && Selected(stream, b) && a != b
    ensures a.key != b.key
  {
    if a.key == b.key {
      SelectedUnique(stream, a, b);
    }
  }

  lemma {:induction false} KeysOfRanked(stream: seq<Candidate>, ranked: seq<Candidate>)
    requires NoTies(stream) && (forall c :: c in ranked ==> Selected(stream, c))
      && StrictlyOrdered(RankedBefore, ranked)
    ensures |Keys(ranked)| == |ranked|
  {
    if ranked != [] {
      var front, last := ranked[..|ranked| - 1], ranked[|ranked| - 1];
      assert ranked == front + [last];
      forall c | c in front ensures Selected(stream, c) {
        assert c in ranked;
      }
      KeysOfRanked(stream, front);
      KeysAppend(front, last);
      forall k | k in Keys(front) ensures k != last.key {
        var i :| 0 <= i < |front| && front[i].key == k;
        assert RankedBefore(ranked[i], last) && ranked[i] in ranked;
        SelectedDiffer(stream, ranked[i], last);
      }
    }
  }

  /** While all distinct keys fit, no evidence id that was ever listed disappears. */
  lemma EarlierIdsStay(t: Texts, nonEvidence: set<string>, older: seq<ToolOutcome>, newer: seq<ToolOutcome>,
                       before: seq<Candidate>, after: seq<Candidate>, maxItems: nat, item: EvidenceItem)
    requires IsLedger(Stream(t, nonEvidence, older, |older|), before)
    requires IsLedger(Stream(t, nonEvidence, older + newer, |older + newer|), after)
    requires |Keys(Stream(t, nonEvidence, older + newer, |older + newer|))| <= maxItems
    requires item in Items(First(before, maxItems))
    ensures exists kept :: kept in Items(First(after, maxItems)) && kept.evidenceId == item.evidenceId
  {
    StreamHasNoTies(t, nonEvidence, older + newer, |older + newer|);
    LedgerSize(Stream(t, nonEvidence, older + newer, |older + newer|), after);
    assert First(after, maxItems) == after;
    var i :| 0 <= i < |First(before, maxItems)| && Items(First(before, maxItems))[i] == item;
    var c := before[i];
    assert c in before && item == c.item;
    AppendingSharpens(t, nonEvidence, older, newer, before, after, c);
    var d :| d in after && d.key == c.key;
    var j :| 0 <= j < |after| && after[j] == d;
    assert Items(after)[j] == d.item;
    LedgerIds(t, nonEvidence, older, before, c);
    LedgerIds(t, nonEvidence, older + newer, after, d);
  }

  lemma LedgerIds(t: Texts, nonEvidence: set<string>, outcomes: seq<ToolOutcome>, ranked: seq<Candidate>, c: Candidate)
    requires IsLedger(Stream(t, nonEvidence, outcomes, |outcomes|), ranked) && c in ranked
    ensures c.item.evidenceId == t.evidenceId(c.key)
  {
    StreamIds(t, nonEvidence, outcomes, |outcomes|);
    SelectedId(t, Stream(t, nonEvidence, outcomes, |outcomes|), c);
  }

  lemma SelectedId(t: Texts, stream: seq<Candidate>, c: Candidate)
    requires Selected(stream, c) && forall x :: x in stream ==> x.item.evidenceId == t.evidenceId(x.key)
    ensures c.item.evidenceId == t.evidenceId(c.key)
  {
    var b :| 0 <= b < |stream| && stream[b].key == c.key && BestAt(stream, b)
             && c == stream[b].(firstSeen := FirstIndex(stream, c.key));
    assert stream[b] in stream;
  }
}
