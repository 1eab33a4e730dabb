/** One research run: plan, search, rank, extract, reduce and render, joined as the service joins them. */
module ResearchRun {
  import opened Collections
  import opened Wrappers
  import opened PyText
  import ResearchQueries
  import opened ResearchSources
  import opened ResearchCitations

  /** What the run is given from outside: the functions of its text steps, and what each call it makes comes to. */
  datatype World = World(
    fold: ResearchQueries.CaseFold, compact: ResearchQueries.Cleaning,
    planner: string -> ResearchQueries.PlannerOutcome,
    search: (nat, string) -> seq<Source>, primary: PrimaryScore, extract: Source -> string,
    reduce: (string, seq<Source>) -> ModelResult, scan: Scanner, upper: UpperCase, hasUrl: string -> bool,
    length: RenderedLength)

  ghost predicate WorldOk(w: World) {
    ResearchQueries.FoldsAscii(w.fold) && ReadsCitations(w.scan, w.upper)
  }

  /** The bounds `DeepResearchConfig` enforces when it is built. */
  datatype Config = Config(
    queries: ResearchQueries.Config, maxQuestionChars: int, maxResultsPerQuery: nat, maxSourcesPerQuery: nat,
    maxExtracts: nat, maxInput: string -> int, maxOutcomeChars: int)
  {
    predicate Valid() {
      && queries.Valid() && 1 <= maxSourcesPerQuery <= maxResultsPerQuery <= 8 && 1 <= maxExtracts <= 8
      && maxQuestionChars >= 200 && maxOutcomeChars >= 800
    }
  }

  datatype Run = Run(
    queries: seq<string>, results: seq<SearchResult>, unique: seq<Source>, extracted: map<string, string>,
    evidence: seq<seq<Source>>, payloads: seq<seq<Entry>>, outcomes: seq<Outcome>)

  function Searches(w: World, queries: seq<string>): (results: seq<SearchResult>)
    ensures |results| == |queries|
    ensures forall i :: 0 <= i < |queries| ==> results[i] == SearchResult(i, w.search(i, queries[i]))
  {
    seq(|queries|, i requires 0 <= i < |queries| => SearchResult(i, w.search(i, queries[i])))
  }

  /** `extracted_by_url`: the contents that are not empty. */
  function ExtractedBy(w: World, targets: seq<Source>): map<string, string> {
    if targets == [] then map[]
    else
      var front, last := ExtractedBy(w, targets[..|targets| - 1]), targets[|targets| - 1];
      if w.extract(last) != [] then front[last.canonicalUrl := w.extract(last)] else front
  }

  /** The sources that have an extract or a snippet. */
  function WithText(extracted: map<string, string>, sources: seq<Source>): seq<Source> {
    if sources == [] then []
    else
      var front, last := WithText(extracted, sources[..|sources| - 1]), sources[|sources| - 1];
      if Excerpt(extracted, last) != [] then front + [last] else front
  }

  lemma {:induction false} WithTextMembers(extracted: map<string, string>, sources: seq<Source>)
    ensures forall s :: s in WithText(extracted, sources) <==> s in sources && Excerpt(extracted, s) != []
    ensures Distinct(sources) ==> Distinct(WithText(extracted, sources))
    ensures |WithText(extracted, sources)| <= |sources|
  {
    if sources != [] {
      var front, last := sources[..|sources| - 1], sources[|sources| - 1];
      assert sources == front + [last];
      WithTextMembers(extracted, front);
      if Distinct(sources) {
        assert forall i, j :: 0 <= i < j < |front| ==> front[i] == sources[i] && front[j] == sources[j];
        assert Distinct(front) && last !in front;
      }
    }
  }

  /** The sources a query is answered from. */
  function EvidenceOf(cfg: Config, results: seq<SearchResult>, unique: seq<Source>, extracted: map<string, string>,
                      query: nat): seq<Source> {
    WithText(extracted, Share(unique, results, query, cfg.maxSourcesPerQuery))
  }

  lemma EvidenceIsUsable(w: World, cfg: Config, results: seq<SearchResult>, unique: seq<Source>,
                         extracted: map<string, string>, query: nat)
    requires Ranked(w.primary, results, unique)
    ensures Distinct(EvidenceOf(cfg, results, unique, extracted, query))
    ensures |EvidenceOf(cfg, results, unique, extracted, query)| <= cfg.maxSourcesPerQuery
    ensures forall s :: s in EvidenceOf(cfg, results, unique, extracted, query) ==>
      s in unique && s.canonicalUrl in UrlsOf(results, query) && Excerpt(extracted, s) != []
  {
    var urls := set u | u in UrlsOf(results, query);
    var share := Share(unique, results, query, cfg.maxSourcesPerQuery);
    EvidenceIsDistinct(w.primary, results, unique, urls, cfg.maxSourcesPerQuery);
    WithTextMembers(extracted, share);
    ReturnedUrls(unique, urls);
    assert forall s :: s in share ==> s in Returned(unique, urls);
  }

  lemma FoldedDistinct(w: World, queries: seq<string>)
    requires ResearchQueries.DistinctFolded(w.fold, queries)
    ensures Distinct(queries)
  {
  }

  lemma QueryIsRanked(w: World, queries: seq<string>, q: nat)
    requires q < |queries|
    ensures q in QueriesOf(Searches(w, queries))
  {
    assert Searches(w, queries)[q] in Searches(w, queries);
  }

  /** What the run is: the plan, the ranking, and each query's answer. */
  ghost predicate Follows(w: World, cfg: Config, layout: Layout, run: Run) {
    && cfg.queries.minQueries <= |run.queries| <= cfg.queries.maxQueries
    && ResearchQueries.DistinctFolded(w.fold, run.queries)
    && run.results == Searches(w, run.queries) && Ranked(w.primary, run.results, run.unique)
    && |run.evidence| == |run.payloads| == |run.outcomes| == |run.queries|
    && forall q :: 0 <= q < |run.queries| ==> FollowsAt(w, cfg, layout, run, q)
  }

  /**
    Query `q` is answered from its own share of the ranked sources; its citations are sound exactly when none of three
    or more digits is shown.
   */
  ghost predicate FollowsAt(w: World, cfg: Config, layout: Layout, run: Run, q: nat)
    requires q < |run.queries| == |run.evidence| == |run.payloads| == |run.outcomes|
  {
    && run.evidence[q] == EvidenceOf(cfg, run.results, run.unique, run.extracted, q)
    && Answered(layout, w.scan, w.upper, w.hasUrl, run.queries[q], run.evidence[q], run.payloads[q], run.extracted,
                w.reduce(run.queries[q], run.evidence[q]), cfg.maxOutcomeChars, run.outcomes[q])
  }

  /** Every citation of every outcome is sound. */
  ghost predicate AllCitationsSound(w: World, layout: Layout, run: Run)
    requires |run.evidence| == |run.payloads| == |run.outcomes| == |run.queries|
  {
    forall q :: 0 <= q < |run.queries| ==>
      CitationsSound(layout, w.scan, w.upper, run.queries[q], run.evidence[q], run.payloads[q], run.extracted,
                     run.outcomes[q])
  }

  /** A run is sound for its reader exactly when no outcome shows a citation of three or more digits. */
  lemma RunIsSoundIff(w: World, cfg: Config, layout: Layout, run: Run)
    requires Follows(w, cfg, layout, run)
    ensures AllCitationsSound(w, layout, run)
            <==> forall q :: 0 <= q < |run.outcomes| ==> !ShowsLong(w.scan, run.outcomes[q])
  {
    forall q | 0 <= q < |run.queries|
      ensures CitationsSound(layout, w.scan, w.upper, run.queries[q], run.evidence[q], run.payloads[q], run.extracted,
                             run.outcomes[q])
              <==> !ShowsLong(w.scan, run.outcomes[q])
    {
      assert FollowsAt(w, cfg, layout, run, q);
    }
  }

  /**
    What a reader can rely on when a query's summary shows no citation of three or more digits: a citation in it names a
    source whose URL this query's search returned, which no candidate for that URL outranks, and whose numbered block,
    with title and URL, is in the text.
   */
  lemma CitationTracesBack(w: World, cfg: Config, layout: Layout, run: Run, q: nat, at: nat, id: string)
    requires Follows(w, cfg, layout, run) && q < |run.queries| && run.outcomes[q].Evidence?
    requires CitesAt(w.scan, run.outcomes[q].shown, at, id) && !ShowsLong(w.scan, run.outcomes[q])
    ensures exists k :: 0 <= k < |run.evidence[q]| && Traced(w, cfg, layout, run, q, id, k)
  {
    assert FollowsAt(w, cfg, layout, run, q);
    assert CitationsSound(layout, w.scan, w.upper, run.queries[q], run.evidence[q], run.payloads[q], run.extracted,
                          run.outcomes[q]);
    var k, i :|
      CitedBlock(layout, w.upper, run.queries[q], run.evidence[q], run.payloads[q], run.extracted, run.outcomes[q], id,
                 k, i);
    EvidenceIsUsable(w, cfg, run.results, run.unique, run.extracted, q);
    var s := run.evidence[q][k];
    assert s in run.evidence[q];
    assert Traced(w, cfg, layout, run, q, id, k);
  }

  ghost predicate Traced(w: World, cfg: Config, layout: Layout, run: Run, q: nat, id: string, k: int)
    requires q < |run.queries| == |run.evidence| == |run.payloads| == |run.outcomes| && run.outcomes[q].Evidence?
    requires 0 <= k < |run.evidence[q]|
  {
    var s, outcome := run.evidence[q][k], run.outcomes[q];
    && w.upper(id) == Label(k + 1)
    && s.canonicalUrl in UrlsOf(run.results, q) && IsBest(w.primary, Candidates(run.results), s)
    && exists block ::
      Heading(k + 1, s) <= block && Contains(Content(layout, run.queries[q], outcome.shown, outcome.rendered), block)
  }

  /** `research`: whatever the planner, the web and the model do, a run that is not refused goes as described. */
  method Research(w: World, cfg: Config, question: string, timeoutSeconds: Option<real>)
    returns (r: Result<Run, string>)
    requires WorldOk(w) && cfg.Valid()
    ensures r.Err? <==> CapText(w.compact(question), cfg.maxQuestionChars) == []
                        || (timeoutSeconds.Some? && timeoutSeconds.value <= 0.0)
    ensures r.Ok? ==> Follows(w, cfg, NyctiLayout(), r.value)
  {
    var normalized := CapText(w.compact(question), cfg.maxQuestionChars);
    if normalized == [] {
      return Err("research question must not be blank");
    }
    if timeoutSeconds.Some? && timeoutSeconds.value <= 0.0 {
      return Err("timeout_seconds must be positive");
    }
    var queries, _, _ := ResearchQueries.PlanQueries(w.fold, w.compact, normalized, w.planner(normalized), cfg.queries);
    var run := Answer(w, cfg, queries);
    r := Ok(run);
  }

  /** Ranking and extraction, and each query's evidence. */
  method Gather(w: World, cfg: Config, queries: seq<string>)
    returns (results: seq<SearchResult>, unique: seq<Source>, extracted: map<string, string>,
             evidence: seq<seq<Source>>)
    ensures results == Searches(w, queries) && Ranked(w.primary, results, unique) && |evidence| == |queries|
    ensures extracted == ExtractedBy(w, First(unique, cfg.maxExtracts))
    ensures forall q :: 0 <= q < |queries| ==> evidence[q] == EvidenceOf(cfg, results, unique, extracted, q)
  {
    results := Searches(w, queries);
    var byQuery;
    byQuery, unique := DedupeAndRank(w.primary, results, cfg.maxSourcesPerQuery);
    extracted := ExtractedBy(w, First(unique, cfg.maxExtracts));
    forall q | 0 <= q < |queries| ensures q in byQuery {
      QueryIsRanked(w, queries, q);
    }
    evidence := seq(|queries|, q requires 0 <= q < |queries| => WithText(extracted, byQuery[q]));
  }

  /** The run once its queries are planned. */
  method Answer(w: World, cfg: Config, queries: seq<string>) returns (run: Run)
    requires WorldOk(w) && cfg.Valid() && ResearchQueries.DistinctFolded(w.fold, queries)
    requires cfg.queries.minQueries <= |queries| <= cfg.queries.maxQueries
    ensures Follows(w, cfg, NyctiLayout(), run) && run.queries == queries
  {
    var results, unique, extracted, evidence := Gather(w, cfg, queries);
    FoldedDistinct(w, queries);
    forall q | 0 <= q < |queries| ensures Distinct(evidence[q]) && |evidence[q]| < 100 {
      EvidenceIsUsable(w, cfg, results, unique, extracted, q);
    }
    var replies := seq(|queries|, q requires 0 <= q < |queries| => w.reduce(queries[q], evidence[q]));
    var payloads, outcomes := ResearchOutcomes(NyctiLayout(), w.scan, w.upper, w.hasUrl, w.length, queries, evidence,
                                               extracted, replies, cfg.maxInput, cfg.maxOutcomeChars);
    run := Run(queries, results, unique, extracted, evidence, payloads, outcomes);
  }
}
