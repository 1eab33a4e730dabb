/** Query planning for deep research: parsing, fallbacks and filling up. */
module ResearchQueries {
  import opened Collections
  import opened Wrappers
  import opened PyText

  /** The bounds `DeepResearchConfig` enforces when it is built. */
  datatype Config = Config(minQueries: nat, maxQueries: nat, maxQueryChars: nat) {
    predicate Valid() { 2 <= minQueries <= maxQueries <= 4 && maxQueryChars >= 40 }
  }

  /** Full case folding works character by character; lower-case ASCII and the space fold to themselves. */
  type CaseFold = char -> string

  ghost predicate FoldsAscii(fold: CaseFold) {
    fold(' ') == " " && forall c :: 'a' <= c <= 'z' ==> fold(c) == [c]
  }

  function Fold(fold: CaseFold, s: string): string {
    if s == [] then [] else fold(s[0]) + Fold(fold, s[1..])
  }

  function Keys(fold: CaseFold, queries: seq<string>): set<string> {
    set q | q in queries :: Fold(fold, q)
  }

  ghost predicate DistinctFolded(fold: CaseFold, queries: seq<string>) {
    forall i, j :: 0 <= i < j < |queries| ==> Fold(fold, queries[i]) != Fold(fold, queries[j])
  }

  const SUFFIXES: seq<string> := [
    "primary sources official" + " evidence",
    "independent evidence" + " limitations" + " counterarguments",
    "latest data" + " methodology comparison",
    "expert analysis" + " conflicting findings"
  ]

  function Candidate(question: string, suffix: string, cfg: Config): string {
    var prefixChars := if cfg.maxQueryChars - |suffix| - 1 >= 1 then cfg.maxQueryChars - |suffix| - 1 else 1;
    Strip(CapText(question, prefixChars) + " " + suffix)
  }

  function Candidates(question: string, suffixes: seq<string>, cfg: Config): seq<string> {
    seq(|suffixes|, i requires 0 <= i < |suffixes| => Candidate(question, suffixes[i], cfg))
  }

  // ---------------------------------------------------------------------
  // Keeping the first query of each folded key
  // ---------------------------------------------------------------------

  /** The items whose key is neither in `seen` nor the key of an earlier item. */
  function Unseen(fold: CaseFold, seen: set<string>, items: seq<string>): seq<string>
    decreases items
  {
    if items == [] then []
    else
      var key := Fold(fold, items[0]);
      if key in seen then Unseen(fold, seen, items[1..])
      else [items[0]] + Unseen(fold, seen + {key}, items[1..])
  }

  function Take<T>(items: seq<T>, n: int): seq<T> {
    if n <= 0 then [] else if n <= |items| then items[..n] else items
  }

  lemma DistinctCons(fold: CaseFold, query: string, rest: seq<string>)
    requires DistinctFolded(fold, rest) && Fold(fold, query) !in Keys(fold, rest)
    ensures DistinctFolded(fold, [query] + rest)
  {
    var all := [query] + rest;
    forall i, j | 0 <= i < j < |all| ensures Fold(fold, all[i]) != Fold(fold, all[j]) {
      assert Fold(fold, rest[j - 1]) in Keys(fold, rest);
    }
  }

  lemma {:induction false} UnseenKeys(fold: CaseFold, seen: set<string>, items: seq<string>)
    ensures Keys(fold, Unseen(fold, seen, items)) == Keys(fold, items) - seen
    ensures DistinctFolded(fold, Unseen(fold, seen, items))
    decreases items
  {
    if items != [] {
      var key := Fold(fold, items[0]);
      assert items == [items[0]] + items[1..];
      assert Keys(fold, items) == {key} + Keys(fold, items[1..]);
      if key in seen {
        UnseenKeys(fold, seen, items[1..]);
      } else {
        var rest := Unseen(fold, seen + {key}, items[1..]);
        UnseenKeys(fold, seen + {key}, items[1..]);
        assert Keys(fold, [items[0]] + rest) == {key} + Keys(fold, rest);
        DistinctCons(fold, items[0], rest);
      }
    }
  }

  lemma {:induction false} DistinctSize(fold: CaseFold, queries: seq<string>)
    requires DistinctFolded(fold, queries)
    ensures |Keys(fold, queries)| == |queries|
  {
    if queries != [] {
      var front, last := queries[..|queries| - 1], queries[|queries| - 1];
      DistinctSize(fold, front);
      assert queries == front + [last];
      assert Keys(fold, queries) == Keys(fold, front) + {Fold(fold, last)};
      assert Fold(fold, last) !in Keys(fold, front);
    }
  }

  lemma {:induction false} KeysAtMost(fold: CaseFold, queries: seq<string>)
    ensures |Keys(fold, queries)| <= |queries|
  {
    if queries != [] {
      assert queries == [queries[0]] + queries[1..];
      assert Keys(fold, queries) == {Fold(fold, queries[0])} + Keys(fold, queries[1..]);
      KeysAtMost(fold, queries[1..]);
    }
  }

  /** Pigeonhole: `seen` can block at most one of the distinct items for each of its keys. */
  lemma UnseenAtLeast(fold: CaseFold, seen: set<string>, items: seq<string>)
    requires DistinctFolded(fold, items)
    ensures |Unseen(fold, seen, items)| >= |items| - |seen|
  {
    UnseenKeys(fold, seen, items);
    DistinctSize(fold, items);
    DistinctSize(fold, Unseen(fold, seen, items));
    var all := Keys(fold, items);
    assert all == (all - seen) + (all * seen);
    SubsetSize(all * seen, seen);
  }

  /** `values` followed by unseen items, until there are `goal` of them. */
  function Extended(fold: CaseFold, values: seq<string>, items: seq<string>, goal: nat): seq<string> {
    values + Take(Unseen(fold, Keys(fold, values), items), goal - |values|)
  }

  lemma ExtendedDistinct(fold: CaseFold, values: seq<string>, items: seq<string>, goal: nat)
    requires DistinctFolded(fold, values)
    ensures DistinctFolded(fold, Extended(fold, values, items, goal))
  {
    var keys := Keys(fold, values);
    var unseen := Unseen(fold, keys, items);
    UnseenKeys(fold, keys, items);
    var all := Extended(fold, values, items, goal);
    forall i, j | 0 <= i < j < |all| ensures Fold(fold, all[i]) != Fold(fold, all[j]) {
      if i < |values| <= j {
        assert unseen[j - |values|] in unseen;
        assert Fold(fold, unseen[j - |values|]) in Keys(fold, unseen);
        assert values[i] in values;
        assert Fold(fold, values[i]) in keys;
      }
    }
  }

  lemma ExtendedSize(fold: CaseFold, values: seq<string>, items: seq<string>, goal: nat)
    requires DistinctFolded(fold, items) && |values| <= goal && |items| >= goal
    ensures |Extended(fold, values, items, goal)| == goal
  {
    KeysAtMost(fold, values);
    UnseenAtLeast(fold, Keys(fold, values), items);
  }

  lemma ExtendedAtMost(fold: CaseFold, values: seq<string>, items: seq<string>, goal: nat)
    requires |values| <= goal
    ensures |values| <= |Extended(fold, values, items, goal)| <= goal
  {
  }

  lemma KeysSnoc(fold: CaseFold, values: seq<string>, q: string)
    ensures Keys(fold, values + [q]) == Keys(fold, values) + {Fold(fold, q)}
  {
    var all := values + [q];
    assert all[|values|] == q;
    forall k | k in Keys(fold, values) + {Fold(fold, q)} ensures k in Keys(fold, all) {
      if k in Keys(fold, values) {
        var x :| x in values && Fold(fold, x) == k;
        assert x in all;
      } else {
        assert q in all;
      }
    }
  }

  /** One turn of each of the three loops. */
  lemma ExtendStep(fold: CaseFold, values: seq<string>, items: seq<string>, goal: nat)
    requires items != [] && |values| < goal
    ensures Extended(fold, values, items, goal)
         == if Fold(fold, items[0]) in Keys(fold, values) then Extended(fold, values, items[1..], goal)
            else Extended(fold, values + [items[0]], items[1..], goal)
  {
    var keys, key := Keys(fold, values), Fold(fold, items[0]);
    if key !in keys {
      KeysSnoc(fold, values, items[0]);
      var rest := Unseen(fold, keys + {key}, items[1..]);
      assert Take([items[0]] + rest, goal - |values|) == [items[0]] + Take(rest, goal - |values| - 1);
    }
  }

  // ---------------------------------------------------------------------
  // The fallback list
  // ---------------------------------------------------------------------

  lemma {:induction false} FoldConcat(fold: CaseFold, a: string, b: string)
    ensures Fold(fold, a + b) == Fold(fold, a) + Fold(fold, b)
  {
    if a == [] {
      assert a + b == b;
    } else {
      FoldConcat(fold, a[1..], b);
      assert (a + b)[1..] == a[1..] + b;
      assert fold(a[0]) + (Fold(fold, a[1..]) + Fold(fold, b)) == fold(a[0]) + Fold(fold, a[1..]) + Fold(fold, b);
    }
  }

  predicate PlainWords(s: string) {
    forall i :: 0 <= i < |s| ==> s[i] == ' ' || 'a' <= s[i] <= 'z'
  }

  lemma {:induction false} FoldPlain(fold: CaseFold, s: string)
    requires FoldsAscii(fold) && PlainWords(s)
    ensures Fold(fold, s) == s
  {
    if s != [] {
      assert s[0] == ' ' || 'a' <= s[0] <= 'z';
      assert PlainWords(s[1..]);
      FoldPlain(fold, s[1..]);
      assert s == [s[0]] + s[1..];
    }
  }

  lemma CandidateTail(question: string, suffix: string, cfg: Config)
    requires GoodSuffix(suffix)
    ensures exists x: string :: Candidate(question, suffix, cfg) == x + suffix
  {
    var prefixChars := if cfg.maxQueryChars - |suffix| - 1 >= 1 then cfg.maxQueryChars - |suffix| - 1 else 1;
    var head := CapText(question, prefixChars) + " ";
    assert !IsSpace(suffix[0]) && !IsSpace(suffix[|suffix| - 1]);
    StripKeepsEnd(head, suffix);
  }

  /** A fallback query still ends in its suffix after folding. */
  lemma CandidateEnding(fold: CaseFold, question: string, suffix: string, cfg: Config)
    requires FoldsAscii(fold) && GoodSuffix(suffix)
    ensures var f := Fold(fold, Candidate(question, suffix, cfg));
            |f| >= 2 && Ending(f) == Ending(suffix)
  {
    CandidateTail(question, suffix, cfg);
    var x: string :| Candidate(question, suffix, cfg) == x + suffix;
    FoldConcat(fold, x, suffix);
    FoldPlain(fold, suffix);
    EndingOfTail(Fold(fold, x), suffix);
  }

  lemma EndingOfTail(head: string, tail: string)
    requires |tail| >= 2
    ensures Ending(head + tail) == Ending(tail)
  {
    assert (head + tail)[|head| + |tail| - 2..] == tail[|tail| - 2..];
  }

  function Ending(s: string): string
    requires |s| >= 2
  {
    s[|s| - 2..]
  }

  /** What the argument needs of the suffix list: plain words, told apart by their last two letters. */
  ghost predicate GoodSuffixes(suffixes: seq<string>) {
    && |suffixes| == 4
    && (forall i :: 0 <= i < |suffixes| ==> GoodSuffix(suffixes[i]))
    && (forall i, j :: 0 <= i < j < |suffixes| ==> Ending(suffixes[i]) != Ending(suffixes[j]))
  }

  ghost predicate GoodSuffix(s: string) {
    2 <= |s| <= 49 && PlainWords(s) && s[0] != ' ' && s[|s| - 1] != ' '
  }

  /** A long phrase is good when its pieces are plain; the pieces are short enough to read off. */
  lemma GoodPhrase(head: string, tail: string)
    requires PlainWords(head) && PlainWords(tail)
    requires |head| >= 1 && |tail| >= 2 && |head| + |tail| <= 49
    requires head[0] != ' ' && tail[|tail| - 1] != ' '
    ensures GoodSuffix(head + tail) && |head + tail| == |head| + |tail| && Ending(head + tail) == Ending(tail)
  {
  }

  lemma FirstSuffix()
    ensures var s := "primary sources official" + " evidence";
            GoodSuffix(s) && |s| == 33 && Ending(s)[0] == 'c'
  {
    GoodPhrase("primary sources official", " evidence");
  }

  lemma SecondSuffix()
    ensures var s := "independent evidence" + " limitations" + " counterarguments";
            GoodSuffix(s) && |s| == 49 && Ending(s)[0] == 't'
  {
    assert PlainWords("independent evidence") && PlainWords(" limitations");
    GoodPhrase("independent evidence" + " limitations", " counterarguments");
  }

  lemma ThirdSuffix()
    ensures var s := "latest data" + " methodology comparison";
            GoodSuffix(s) && Ending(s)[0] == 'o'
  {
    GoodPhrase("latest data", " methodology comparison");
  }

  lemma FourthSuffix()
    ensures var s := "expert analysis" + " conflicting findings";
            GoodSuffix(s) && Ending(s)[0] == 'g'
  {
    GoodPhrase("expert analysis", " conflicting findings");
  }

  lemma SuffixesAreGood()
    ensures GoodSuffixes(SUFFIXES) && |SUFFIXES[0]| == 33 && |SUFFIXES[1]| == 49
  {
    FirstSuffix();
    SecondSuffix();
    ThirdSuffix();
    FourthSuffix();
  }

  lemma CandidatesDistinct(fold: CaseFold, question: string, suffixes: seq<string>, cfg: Config)
    requires FoldsAscii(fold) && GoodSuffixes(suffixes)
    ensures DistinctFolded(fold, Candidates(question, suffixes, cfg))
  {
    var c := Candidates(question, suffixes, cfg);
    forall i, j | 0 <= i < j < |c| ensures Fold(fold, c[i]) != Fold(fold, c[j]) {
      assert GoodSuffix(suffixes[i]) && GoodSuffix(suffixes[j]);
      CandidateEnding(fold, question, suffixes[i], cfg);
      CandidateEnding(fold, question, suffixes[j], cfg);
    }
  }

  /** What the fallback list holds: the capped question, then the first unused candidates. */
  function FallbackQueries(fold: CaseFold, question: string, suffixes: seq<string>, cfg: Config): seq<string> {
    var first := [CapText(question, cfg.maxQueryChars)];
    Take(Extended(fold, first, Candidates(question, suffixes, cfg), cfg.minQueries), cfg.maxQueries)
  }

  /** Exactly `minQueries` distinct queries, for every question and every accepted configuration. */
  lemma FallbackSize(fold: CaseFold, question: string, suffixes: seq<string>, cfg: Config)
    requires FoldsAscii(fold) && cfg.Valid() && GoodSuffixes(suffixes)
    ensures |FallbackQueries(fold, question, suffixes, cfg)| == cfg.minQueries
    ensures DistinctFolded(fold, FallbackQueries(fold, question, suffixes, cfg))
  {
    var first := [CapText(question, cfg.maxQueryChars)];
    CandidatesDistinct(fold, question, suffixes, cfg);
    ExtendedSize(fold, first, Candidates(question, suffixes, cfg), cfg.minQueries);
    ExtendedDistinct(fold, first, Candidates(question, suffixes, cfg), cfg.minQueries);
  }

  /** The planned queries followed by the first unused fallbacks; at least one is added while any is left. */
  function FillQueries(fold: CaseFold, planned: seq<string>, fallback: seq<string>, cfg: Config): seq<string> {
    var goal := if cfg.minQueries > |planned| then cfg.minQueries else |planned| + 1;
    Take(Extended(fold, planned, fallback, goal), cfg.maxQueries)
  }

  lemma FillSize(fold: CaseFold, planned: seq<string>, fallback: seq<string>, cfg: Config)
    requires cfg.Valid() && |planned| < cfg.minQueries
    requires DistinctFolded(fold, planned) && DistinctFolded(fold, fallback) && |fallback| >= cfg.minQueries
    ensures |FillQueries(fold, planned, fallback, cfg)| == cfg.minQueries
    ensures DistinctFolded(fold, FillQueries(fold, planned, fallback, cfg))
    ensures planned <= FillQueries(fold, planned, fallback, cfg)
  {
    ExtendedSize(fold, planned, fallback, cfg.minQueries);
    ExtendedDistinct(fold, planned, fallback, cfg.minQueries);
  }

  // ---------------------------------------------------------------------
  // The loops
  // ---------------------------------------------------------------------

  /** What happens to one raw query before it is looked at. */
  type Cleaning = string -> string

  /** White space compacted (by `str.split` and `" ".join`), then the length capped. */
  function CompactAndCap(compact: Cleaning, cfg: Config): Cleaning {
    raw => CapText(compact(raw), cfg.maxQueryChars)
  }

  /** Each raw query cleaned; empty ones are dropped. */
  function Cleaned(clean: Cleaning, raw: seq<string>): seq<string> {
    if raw == [] then []
    else
      var query := clean(raw[0]);
      if query == [] then Cleaned(clean, raw[1..]) else [query] + Cleaned(clean, raw[1..])
  }

  /** The queries an answer plans: the first `maxQueries` distinct non-empty ones. */
  function ParsedQueries(fold: CaseFold, clean: Cleaning, raw: Option<seq<string>>, cfg: Config): seq<string> {
    if raw.None? then [] else Extended(fold, [], Cleaned(clean, raw.value), cfg.maxQueries)
  }

  /** `_parse_queries` on the list found under "queries" (None when there is no such list). */
  method ParseQueries(fold: CaseFold, clean: Cleaning, raw: Option<seq<string>>, cfg: Config)
    returns (values: seq<string>)
    requires cfg.Valid()
    ensures values == ParsedQueries(fold, clean, raw, cfg)
  {
    values := [];
    if raw.None? {
      return;
    }
    var seen: set<string> := {};
    ghost var all := ParsedQueries(fold, clean, raw, cfg);
    var i := 0;
    assert raw.value[0..] == raw.value;
    while i < |raw.value|
      invariant 0 <= i <= |raw.value|
      invariant |values| < cfg.maxQueries && seen == Keys(fold, values)
      invariant all == Extended(fold, values, Cleaned(clean, raw.value[i..]), cfg.maxQueries)
    {
      var query := clean(raw.value[i]);
      var key := Fold(fold, query);
      ghost var rest := Cleaned(clean, raw.value[i + 1..]);
      assert raw.value[i..][1..] == raw.value[i + 1..];
      i := i + 1;
      if query == [] {
        continue;
      }
      ExtendStep(fold, values, [query] + rest, cfg.maxQueries);
      assert ([query] + rest)[1..] == rest;
      if key in seen {
        continue;
      }
      KeysSnoc(fold, values, query);
      seen := seen + {key};
      values := values + [query];
      if |values| >= cfg.maxQueries {
        break;
      }
    }
  }

  /** `_fallback_queries`: adds candidates while the list is too short. */
  method BuildFallback(fold: CaseFold, question: string, suffixes: seq<string>, cfg: Config)
    returns (queries: seq<string>)
    requires cfg.Valid()
    ensures queries == FallbackQueries(fold, question, suffixes, cfg)
  {
    queries := [CapText(question, cfg.maxQueryChars)];
    ghost var candidates := Candidates(question, suffixes, cfg);
    ghost var all := Extended(fold, queries, candidates, cfg.minQueries);
    var i := 0;
    assert candidates[0..] == candidates;
    while i < |suffixes|
      invariant 0 <= i <= |suffixes| && 1 <= |queries| <= cfg.minQueries
      invariant all == Extended(fold, queries, candidates[i..], cfg.minQueries)
    {
      if |queries| >= cfg.minQueries {
        break;
      }
      var candidate := Candidate(question, suffixes[i], cfg);
      assert candidates[i..][0] == candidate && candidates[i..][1..] == candidates[i + 1..];
      ExtendStep(fold, queries, candidates[i..], cfg.minQueries);
      if Fold(fold, candidate) !in Keys(fold, queries) {
        queries := queries + [candidate];
      }
      i := i + 1;
    }
    queries := Take(queries, cfg.maxQueries);
  }

  /** `_fill_queries`: the length test comes after each addition. */
  method FillUp(fold: CaseFold, planned: seq<string>, fallback: seq<string>, cfg: Config) returns (values: seq<string>)
    requires cfg.Valid()
    ensures values == FillQueries(fold, planned, fallback, cfg)
  {
    values := planned;
    var seen := Keys(fold, planned);
    ghost var goal := if cfg.minQueries > |planned| then cfg.minQueries else |planned| + 1;
    ghost var all := Extended(fold, planned, fallback, goal);
    var i := 0;
    assert fallback[0..] == fallback;
    while i < |fallback|
      invariant 0 <= i <= |fallback| && |planned| <= |values| < goal && seen == Keys(fold, values)
      invariant all == Extended(fold, values, fallback[i..], goal)
    {
      var candidate := fallback[i];
      assert fallback[i..][1..] == fallback[i + 1..];
      ExtendStep(fold, values, fallback[i..], goal);
      i := i + 1;
      if Fold(fold, candidate) in seen {
        continue;
      }
      KeysSnoc(fold, values, candidate);
      values := values + [candidate];
      seen := seen + {Fold(fold, candidate)};
      if |values| >= cfg.minQueries {
        break;
      }
    }
    values := Take(values, cfg.maxQueries);
  }

  // ---------------------------------------------------------------------
  // The plan
  // ---------------------------------------------------------------------

  /** What the planning model call came to; an answer carries the query list it held, if any. */
  datatype PlannerOutcome = Skipped | Unavailable | TimedOut | Failed | Answered(raw: Option<seq<string>>)
  datatype PlanStatus = PlanOk | PlanInvalid | PlanNotRun

  lemma ParsedSize(fold: CaseFold, clean: Cleaning, raw: Option<seq<string>>, cfg: Config)
    ensures DistinctFolded(fold, ParsedQueries(fold, clean, raw, cfg))
      && |ParsedQueries(fold, clean, raw, cfg)| <= cfg.maxQueries
  {
    if raw.Some? {
      ExtendedDistinct(fold, [], Cleaned(clean, raw.value), cfg.maxQueries);
      ExtendedAtMost(fold, [], Cleaned(clean, raw.value), cfg.maxQueries);
    }
  }

  /** `_plan_queries`: between min and max distinct queries, whatever the planner did. */
  method PlanQueries(fold: CaseFold, compact: Cleaning, question: string, outcome: PlannerOutcome, cfg: Config)
    returns (queries: seq<string>, status: PlanStatus, usedFallback: bool)
    requires FoldsAscii(fold) && cfg.Valid()
    ensures cfg.minQueries <= |queries| <= cfg.maxQueries
    ensures DistinctFolded(fold, queries)
    ensures usedFallback <==> status != PlanOk
    ensures status == PlanNotRun <==> !outcome.Answered?
    ensures status == PlanNotRun ==> queries == FallbackQueries(fold, question, SUFFIXES, cfg)
    ensures outcome.Answered? ==>
      var planned := ParsedQueries(fold, CompactAndCap(compact, cfg), outcome.raw, cfg);
      && (status == PlanOk <==> |planned| >= cfg.minQueries)
      && planned <= queries
      && (status == PlanOk ==> queries == planned)
  {
    var fallback := BuildFallback(fold, question, SUFFIXES, cfg);
    SuffixesAreGood();
    FallbackSize(fold, question, SUFFIXES, cfg);
    if !outcome.Answered? {
      return fallback, PlanNotRun, true;
    }
    var clean := CompactAndCap(compact, cfg);
    var planned := ParseQueries(fold, clean, outcome.raw, cfg);
    ParsedSize(fold, clean, outcome.raw, cfg);
    if |planned| < cfg.minQueries {
      var combined := FillUp(fold, planned, fallback, cfg);
      FillSize(fold, planned, fallback, cfg);
      return combined, PlanInvalid, true;
    }
    return planned, PlanOk, false;
  }

  // ---------------------------------------------------------------------
  // Query length
  // ---------------------------------------------------------------------

  ghost predicate AllFit(queries: seq<string>, limit: nat) {
    forall i :: 0 <= i < |queries| ==> |queries[i]| <= limit
  }

  lemma {:induction false} UnseenMembers(fold: CaseFold, seen: set<string>, items: seq<string>)
    ensures forall i :: 0 <= i < |Unseen(fold, seen, items)| ==> Unseen(fold, seen, items)[i] in items
    decreases items
  {
    if items != [] {
      var key := Fold(fold, items[0]);
      UnseenMembers(fold, if key in seen then seen else seen + {key}, items[1..]);
    }
  }

  lemma {:induction false} StripShortens(s: string)
    ensures |LStrip(s)| <= |s|
  {
    if s != [] && IsSpace(s[0]) {
      StripShortens(s[1..]);
    }
  }

  lemma CandidateFits(question: string, suffix: string, cfg: Config)
    requires cfg.maxQueryChars >= |suffix| + 4
    ensures |Candidate(question, suffix, cfg)| <= cfg.maxQueryChars
  {
    var prefixChars := cfg.maxQueryChars - |suffix| - 1;
    CapTextFits(question, prefixChars);
    var text := CapText(question, prefixChars) + " " + suffix;
    RStripIsPrefix(text);
    StripShortens(RStrip(text));
  }

  lemma FallbackFits(fold: CaseFold, question: string, suffixes: seq<string>, cfg: Config)
    requires cfg.Valid() && GoodSuffixes(suffixes) && cfg.maxQueryChars >= 53
    ensures AllFit(FallbackQueries(fold, question, suffixes, cfg), cfg.maxQueryChars)
  {
    var candidates := Candidates(question, suffixes, cfg);
    forall i | 0 <= i < |candidates| ensures |candidates[i]| <= cfg.maxQueryChars {
      assert GoodSuffix(suffixes[i]);
      CandidateFits(question, suffixes[i], cfg);
    }
    CapTextFits(question, cfg.maxQueryChars);
    ExtendedFits(fold, [CapText(question, cfg.maxQueryChars)], candidates, cfg.minQueries, cfg.maxQueryChars);
  }

  lemma ExtendedFits(fold: CaseFold, values: seq<string>, items: seq<string>, goal: nat, limit: nat)
    requires AllFit(values, limit) && AllFit(items, limit)
    ensures AllFit(Extended(fold, values, items, goal), limit)
  {
    UnseenMembers(fold, Keys(fold, values), items);
  }

  /** A question that is already its own first fallback: a stem of letters, three dots and the first suffix. */
  function Collision(suffix: string, cfg: Config): string
    requires cfg.maxQueryChars >= 40
  {
    Stem(cfg) + "... " + suffix
  }

  function Stem(cfg: Config): (s: string)
    requires cfg.maxQueryChars >= 40
    ensures |s| == cfg.maxQueryChars - 37 && forall i :: 0 <= i < |s| ==> s[i] == 'a'
  {
    seq(cfg.maxQueryChars - 37, _ => 'a')
  }

  lemma CollisionIsFirstCandidate(suffix: string, cfg: Config)
    requires cfg.Valid() && GoodSuffix(suffix) && |suffix| == 33
    ensures Candidate(Collision(suffix, cfg), suffix, cfg) == Collision(suffix, cfg)
    ensures |Collision(suffix, cfg)| == cfg.maxQueryChars
  {
    var q, stem := Collision(suffix, cfg), Stem(cfg);
    var k := |stem|;
    assert q[..k] == stem;
    assert ' ' !in stem;
    assert stem[k - 1] == 'a';
    assert RStrip(stem) == stem;
    assert CapText(q, k + 3) == stem + "...";
    var text := stem + "..." + " " + suffix;
    assert "... " == "..." + " ";
    assert text == q;
    assert q[|q| - 1] == suffix[|suffix| - 1];
    StripTight(q);
  }

  /** Cutting one or two letters off the collision drops its whole last word, and the dots make it too long. */
  lemma LongCandidate(head: string, word: string, suffix: string, cfg: Config)
    requires cfg.Valid() && cfg.maxQueryChars < 53 && GoodSuffix(suffix) && |suffix| == 49
    requires head != [] && !IsSpace(head[0]) && !IsSpace(head[|head| - 1])
    requires ' ' !in word && |word| == 8 && |head| >= 5
    ensures |Candidate(head + " " + word, suffix, cfg)| > cfg.maxQueryChars
  {
    var q := head + " " + word;
    var prefixChars := if cfg.maxQueryChars - 50 >= 1 then cfg.maxQueryChars - 50 else 1;
    var cut := word[..8 + (prefixChars - 3)];
    var kept := SliceTo(q, prefixChars - 3);
    assert kept == head + " " + cut;
    BeforeLastSpaceOf(head, cut);
    assert RStrip(head) == head;
    assert CapText(q, prefixChars) == head + "...";
    var text := head + "..." + " " + suffix;
    assert text[|text| - 1] == suffix[48];
    StripTight(text);
  }

  lemma SecondFallback(fold: CaseFold, question: string, suffixes: seq<string>, cfg: Config)
    requires FoldsAscii(fold) && cfg.Valid() && GoodSuffixes(suffixes)
    requires |question| <= cfg.maxQueryChars && Candidate(question, suffixes[0], cfg) == question
    ensures Candidate(question, suffixes[1], cfg) in FallbackQueries(fold, question, suffixes, cfg)
  {
    var c := Candidates(question, suffixes, cfg);
    CandidatesDistinct(fold, question, suffixes, cfg);
    assert Fold(fold, c[0]) != Fold(fold, c[1]);
    assert CapText(question, cfg.maxQueryChars) == question;
    SecondOf(fold, question, c, cfg);
  }

  lemma SecondOf(fold: CaseFold, first: string, c: seq<string>, cfg: Config)
    requires cfg.Valid() && |c| >= 2 && c[0] == first && Fold(fold, c[0]) != Fold(fold, c[1])
    ensures c[1] in Take(Extended(fold, [first], c, cfg.minQueries), cfg.maxQueries)
  {
    assert Keys(fold, [first]) == {Fold(fold, first)};
    ExtendStep(fold, [first], c, cfg.minQueries);
    ExtendStep(fold, [first], c[1..], cfg.minQueries);
    var all := Extended(fold, [first, c[1]], c[1..][1..], cfg.minQueries);
    ExtendedAtMost(fold, [first, c[1]], c[1..][1..], cfg.minQueries);
    assert [first] + [c[1]] == [first, c[1]];
    assert all[1] == c[1] && Take(all, cfg.maxQueries) == all;
  }

  lemma CollisionText(cfg: Config)
    requires cfg.Valid()
    ensures Collision(SUFFIXES[0], cfg) == Stem(cfg) + "... " + "primary sources official" + " " + "evidence"
    ensures ' ' !in "evidence"
    ensures var head := Stem(cfg) + "... " + "primary sources official";
            head[0] == 'a' && head[|head| - 1] == 'l'
  {
    assert " evidence" == " " + "evidence";
    var official := "primary sources official";
    assert |official| == 24 && official[23] == 'l';
  }

  lemma OverflowOf(fold: CaseFold, head: string, word: string, suffixes: seq<string>, cfg: Config)
    requires FoldsAscii(fold) && cfg.Valid() && cfg.maxQueryChars < 53
    requires GoodSuffixes(suffixes) && |suffixes[0]| == 33 && |suffixes[1]| == 49
    requires head != [] && !IsSpace(head[0]) && !IsSpace(head[|head| - 1])
    requires ' ' !in word && |word| == 8 && |head| >= 5
    requires Collision(suffixes[0], cfg) == head + " " + word
    ensures !AllFit(FallbackQueries(fold, Collision(suffixes[0], cfg), suffixes, cfg), cfg.maxQueryChars)
  {
    assert GoodSuffix(suffixes[0]) && GoodSuffix(suffixes[1]);
    CollisionIsFirstCandidate(suffixes[0], cfg);
    SecondFallback(fold, head + " " + word, suffixes, cfg);
    LongCandidate(head, word, suffixes[1], cfg);
  }

  /** With a short limit, the collision pushes the plan on to the longest suffix, and that query is too long. */
  lemma CollisionOverflows(fold: CaseFold, cfg: Config)
    requires FoldsAscii(fold) && cfg.Valid() && cfg.maxQueryChars < 53
    ensures !AllFit(FallbackQueries(fold, Collision(SUFFIXES[0], cfg), SUFFIXES, cfg), cfg.maxQueryChars)
  {
    SuffixesAreGood();
    CollisionText(cfg);
    OverflowOf(fold, Stem(cfg) + "... " + "primary sources official", "evidence", SUFFIXES, cfg);
  }

  /**
    Fallback queries respect `max_query_chars` for every question exactly when the longest suffix leaves room for four
    more characters.
   */
  lemma FallbackFitsIff(fold: CaseFold, cfg: Config)
    requires FoldsAscii(fold) && cfg.Valid()
    ensures (forall question: string :: AllFit(FallbackQueries(fold, question, SUFFIXES, cfg), cfg.maxQueryChars))
       <==> cfg.maxQueryChars >= 53
  {
    if cfg.maxQueryChars >= 53 {
      SuffixesAreGood();
      forall question: string ensures AllFit(FallbackQueries(fold, question, SUFFIXES, cfg), cfg.maxQueryChars) {
        FallbackFits(fold, question, SUFFIXES, cfg);
      }
    } else {
      CollisionOverflows(fold, cfg);
    }
  }
}
