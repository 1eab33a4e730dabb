/** Deduplicating and ranking search results across the queries of one research run. */
module ResearchSources {
  import opened Collections
  import opened PySort

  datatype Source = Source(
    title: string, url: string, canonicalUrl: string, snippet: string,
    publishedDate: string, score: real, discoveryOrder: int)

  datatype SearchResult = SearchResult(queryIndex: int, sources: seq<Source>)

  /** The primary-source score, a fixed function of title, host and path. */
  type PrimaryScore = Source -> int

  /** `_source_rank(a) < _source_rank(b)`: tuples compare lexicographically. */
  predicate RanksBelow(primary: PrimaryScore, a: Source, b: Source) {
    if primary(a) != primary(b) then primary(a) < primary(b)
    else if a.score != b.score then a.score < b.score
    else if |a.snippet| != |b.snippet| then |a.snippet| < |b.snippet|
    else b.discoveryOrder < a.discoveryOrder
  }

  /** All candidates in discovery order: query by query, result by result. */
  function Candidates(results: seq<SearchResult>): seq<Source> {
    if results == [] then [] else Candidates(results[..|results| - 1]) + results[|results| - 1].sources
  }

  function Urls(sources: seq<Source>): (urls: seq<string>)
    ensures |urls| == |sources|
    ensures forall i :: 0 <= i < |sources| ==> urls[i] == sources[i].canonicalUrl
  {
    seq(|sources|, i requires 0 <= i < |sources| => sources[i].canonicalUrl)
  }

  /** The URLs one query returned. */
  function UrlsOf(results: seq<SearchResult>, query: int): seq<string> {
    if results == [] then []
    else
      var last := results[|results| - 1];
      UrlsOf(results[..|results| - 1], query) + (if last.queryIndex == query then Urls(last.sources) else [])
  }

  ghost function QueriesOf(results: seq<SearchResult>): set<int> {
    set r | r in results :: r.queryIndex
  }

  /** `best` is the first candidate for its URL that no candidate for that URL outranks. */
  ghost predicate IsBest(primary: PrimaryScore, seen: seq<Source>, best: Source) {
    exists i :: 0 <= i < |seen| && seen[i] == best && BestFrom(primary, seen, i)
  }

  ghost predicate BestFrom(primary: PrimaryScore, seen: seq<Source>, i: nat)
    requires i < |seen|
  {
    && (forall j :: 0 <= j < i && seen[j].canonicalUrl == seen[i].canonicalUrl ==>
        RanksBelow(primary, seen[j], seen[i]))
    && (forall j :: i <= j < |seen| && seen[j].canonicalUrl == seen[i].canonicalUrl ==>
        !RanksBelow(primary, seen[i], seen[j]))
  }

  /** The members of `sources` whose URL is in `urls`, in order. */
  function Returned(sources: seq<Source>, urls: set<string>): seq<Source> {
    if sources == [] then []
    else (if sources[0].canonicalUrl in urls then [sources[0]] else []) + Returned(sources[1..], urls)
  }

  /** A query's share of the ranked sources: the first ones whose URL it returned. */
  function Share(unique: seq<Source>, results: seq<SearchResult>, query: int, n: nat): seq<Source> {
    First(Returned(unique, set u | u in UrlsOf(results, query)), n)
  }

  /** The promise: one unbeaten source per URL, best first, and each query's share of them. */
  ghost predicate Ranked(primary: PrimaryScore, results: seq<SearchResult>, unique: seq<Source>) {
    && Distinct(Urls(unique))
    && (forall u :: u in unique ==> IsBest(primary, Candidates(results), u))
    && (forall c :: c in Candidates(results) ==> c.canonicalUrl in Urls(unique))
    && (forall i, j :: 0 <= i < j < |unique| ==> !RanksBelow(primary, unique[i], unique[j]))
  }

  // ---------------------------------------------------------------------
  // The one-pass map
  // ---------------------------------------------------------------------

  /** The dictionary `best_by_url`: its keys in insertion order and its values. */
  ghost predicate BestMap(primary: PrimaryScore, seen: seq<Source>, order: seq<string>, best: map<string, Source>) {
    && Distinct(order)
    && (forall url :: url in order <==> url in best)
    && (forall url :: url in best ==> best[url].canonicalUrl == url && IsBest(primary, seen, best[url]))
    && (forall c :: c in seen ==> c.canonicalUrl in best)
  }

  lemma RankIsStrictOrder(primary: PrimaryScore)
    ensures StrictWeakOrder((a: Source, b: Source) => RanksBelow(primary, b, a))
  {
  }

  lemma RanksBelowTransitive(primary: PrimaryScore, a: Source, b: Source, c: Source)
    ensures RanksBelow(primary, a, b) && RanksBelow(primary, b, c) ==> RanksBelow(primary, a, c)
    ensures !RanksBelow(primary, a, b) && RanksBelow(primary, a, c) ==> RanksBelow(primary, b, c)
    ensures !RanksBelow(primary, a, a)
  {
  }

  /** A later candidate for another URL, or one that does not outrank, changes nothing. */
  lemma BestKept(primary: PrimaryScore, seen: seq<Source>, best: Source, c: Source)
    requires IsBest(primary, seen, best)
    requires c.canonicalUrl == best.canonicalUrl ==> !RanksBelow(primary, best, c)
    ensures IsBest(primary, seen + [c], best)
  {
    var i :| 0 <= i < |seen| && seen[i] == best && BestFrom(primary, seen, i);
    var all := seen + [c];
    assert all[i] == best;
    forall j | i <= j < |all| && all[j].canonicalUrl == all[i].canonicalUrl
      ensures !RanksBelow(primary, all[i], all[j])
    {
      if j < |seen| {
        assert all[j] == seen[j];
      }
    }
    assert BestFrom(primary, all, i);
  }

  /** A candidate for a new URL, or one that outranks the best so far, becomes the best. */
  lemma BestReplaced(primary: PrimaryScore, seen: seq<Source>, c: Source, best: Source)
    requires c.canonicalUrl in Urls(seen) ==>
      best.canonicalUrl == c.canonicalUrl && IsBest(primary, seen, best) && RanksBelow(primary, best, c)
    ensures IsBest(primary, seen + [c], c)
  {
    var all, n := seen + [c], |seen|;
    assert all[n] == c;
    forall j | 0 <= j < n && all[j].canonicalUrl == c.canonicalUrl ensures RanksBelow(primary, all[j], c) {
      assert all[j] == seen[j] && Urls(seen)[j] == c.canonicalUrl;
      var i :| 0 <= i < |seen| && seen[i] == best && BestFrom(primary, seen, i);
      RanksBelowTransitive(primary, seen[j], best, c);
      RanksBelowTransitive(primary, best, seen[j], c);
    }
    RanksBelowTransitive(primary, c, c, c);
    assert BestFrom(primary, all, n);
  }

  /** One iteration of the inner loop keeps the dictionary right. */
  lemma BestMapStep(primary: PrimaryScore, seen: seq<Source>, order: seq<string>, best: map<string, Source>, c: Source)
    requires BestMap(primary, seen, order, best)
    ensures var url := c.canonicalUrl;
            var replace := url !in best || RanksBelow(primary, best[url], c);
            BestMap(primary, seen + [c], if url in best then order else order + [url],
                    if replace then best[url := c] else best)
  {
    var url := c.canonicalUrl;
    var replace := url !in best || RanksBelow(primary, best[url], c);
    var best' := if replace then best[url := c] else best;
    if replace {
      if url in Urls(seen) {
        var j :| 0 <= j < |seen| && Urls(seen)[j] == url;
        assert seen[j] in seen;
      }
      BestReplaced(primary, seen, c, if url in best then best[url] else c);
    }
    forall u | u in best' ensures best'[u].canonicalUrl == u && IsBest(primary, seen + [c], best'[u]) {
      if u != url || !replace {
        BestKept(primary, seen, best[u], c);
      }
    }
  }

  // ---------------------------------------------------------------------
  // Each query's share
  // ---------------------------------------------------------------------

  lemma {:induction false} ReturnedUrls(sources: seq<Source>, urls: set<string>)
    ensures forall s :: s in Returned(sources, urls) <==> s in sources && s.canonicalUrl in urls
    ensures Distinct(Urls(sources)) ==> Distinct(Urls(Returned(sources, urls)))
  {
    if sources != [] {
      var rest := Returned(sources[1..], urls);
      ReturnedUrls(sources[1..], urls);
      if Distinct(Urls(sources)) {
        forall i, j | 0 <= i < j < |sources| - 1 ensures Urls(sources[1..])[i] != Urls(sources[1..])[j] {
          assert Urls(sources[1..])[i] == Urls(sources)[i + 1] && Urls(sources[1..])[j] == Urls(sources)[j + 1];
        }
        forall k | 0 <= k < |rest| ensures rest[k].canonicalUrl != sources[0].canonicalUrl {
          assert rest[k] in sources[1..];
          var m :| 0 <= m < |sources| - 1 && sources[1..][m] == rest[k];
          assert Urls(sources)[0] != Urls(sources)[m + 1];
        }
      }
    }
  }

  /** The position of a URL in the ranking. */
  function Position(unique: seq<Source>, url: string): nat {
    if unique == [] || unique[0].canonicalUrl == url then 0 else 1 + Position(unique[1..], url)
  }

  lemma {:induction false} PositionFinds(unique: seq<Source>, url: string)
    requires url in Urls(unique)
    ensures Position(unique, url) < |unique| && unique[Position(unique, url)].canonicalUrl == url
  {
    if unique[0].canonicalUrl != url {
      var k :| 0 <= k < |unique| && Urls(unique)[k] == url;
      assert Urls(unique[1..])[k - 1] == url;
      PositionFinds(unique[1..], url);
    }
  }

  lemma SamePlace(urls: seq<string>, i: nat, j: nat)
    requires Distinct(urls) && i < |urls| && j < |urls| && urls[i] == urls[j]
    ensures i == j
  {
  }

  lemma PositionOf(unique: seq<Source>, k: nat)
    requires Distinct(Urls(unique)) && k < |unique|
    ensures Position(unique, unique[k].canonicalUrl) == k
  {
    var url := unique[k].canonicalUrl;
    assert Urls(unique)[k] == url;
    PositionFinds(unique, url);
    SamePlace(Urls(unique), Position(unique, url), k);
  }

  ghost predicate Ascending(position: string -> int, urls: seq<string>) {
    forall i, j :: 0 <= i < j < |urls| ==> position(urls[i]) < position(urls[j])
  }

  lemma AscendingCons(position: string -> int, x: string, rest: seq<string>)
    requires Ascending(position, rest) && forall u :: u in rest ==> position(x) < position(u)
    ensures Ascending(position, [x] + rest)
  {
    var all := [x] + rest;
    forall i, j | 0 <= i < j < |all| ensures position(all[i]) < position(all[j]) {
      assert all[j] == rest[j - 1] && rest[j - 1] in rest;
      if i > 0 {
        assert all[i] == rest[i - 1];
      }
    }
  }

  lemma ReturnedFrom(all: seq<Source>, k: nat, urls: set<string>)
    requires k < |all|
    ensures var rest := Urls(Returned(all[k + 1..], urls));
            Urls(Returned(all[k..], urls)) == if all[k].canonicalUrl in urls then [all[k].canonicalUrl] + rest else rest
  {
    assert all[k..][1..] == all[k + 1..];
    var rest := Returned(all[k + 1..], urls);
    assert Urls([all[k]] + rest) == [all[k].canonicalUrl] + Urls(rest);
  }

  lemma {:induction false} ReturnedAscending(all: seq<Source>, k: nat, urls: set<string>)
    requires Distinct(Urls(all)) && k <= |all|
    ensures Ascending(url => Position(all, url), Urls(Returned(all[k..], urls)))
    ensures forall u :: u in Urls(Returned(all[k..], urls)) ==> k <= Position(all, u)
    decreases |all| - k
  {
    if k < |all| {
      ReturnedAscending(all, k + 1, urls);
      PositionOf(all, k);
      ReturnedFrom(all, k, urls);
      if all[k].canonicalUrl in urls {
        AscendingCons(url => Position(all, url), all[k].canonicalUrl, Urls(Returned(all[k + 1..], urls)));
      }
    }
  }

  lemma SortedUrlsAscending(unique: seq<Source>, urls: seq<string>)
    requires Distinct(Urls(unique)) && Distinct(urls)
    requires forall u :: u in urls ==> u in Urls(unique)
    ensures var sorted := Sort((a, b) => Position(unique, a) < Position(unique, b), urls);
            Ascending(url => Position(unique, url), sorted) && forall u :: u in sorted <==> u in urls
  {
    var before := (a, b) => Position(unique, a) < Position(unique, b);
    SortOrdered(before, urls);
    SortMembers(before, urls);
    SortDistinct(before, urls);
    var sorted := Sort(before, urls);
    forall i, j | 0 <= i < j < |sorted| ensures Position(unique, sorted[i]) < Position(unique, sorted[j]) {
      assert sorted[i] in urls && sorted[j] in urls;
      assert !before(sorted[j], sorted[i]);
      PositionsDiffer(unique, sorted[i], sorted[j]);
    }
  }

  lemma PositionsDiffer(unique: seq<Source>, a: string, b: string)
    requires a in Urls(unique) && b in Urls(unique) && a != b
    ensures Position(unique, a) != Position(unique, b)
  {
    PositionFinds(unique, a);
    PositionFinds(unique, b);
  }

  /** Sorting a query's URLs by rank position lists exactly the ranked sources it returned. */
  lemma ShareIsReturned(unique: seq<Source>, urls: seq<string>)
    requires Distinct(Urls(unique)) && forall u :: u in urls ==> u in Urls(unique)
    ensures Sort((a, b) => Position(unique, a) < Position(unique, b), Dedupe(urls))
         == Urls(Returned(unique, set u | u in urls))
  {
    var wanted := set u | u in urls;
    DedupeMembers(urls);
    SortedUrlsAscending(unique, Dedupe(urls));
    ReturnedAscending(unique, 0, wanted);
    assert unique[0..] == unique;
    ReturnedUrls(unique, wanted);
    var sorted := Sort((a, b) => Position(unique, a) < Position(unique, b), Dedupe(urls));
    var share := Urls(Returned(unique, wanted));
    forall x ensures x in sorted <==> x in share {
      if x in sorted {
        var k :| 0 <= k < |unique| && Urls(unique)[k] == x;
        assert unique[k] in Returned(unique, wanted);
        var m :| 0 <= m < |share| && Returned(unique, wanted)[m] == unique[k];
        assert share[m] == x;
      }
      if x in share {
        var m :| 0 <= m < |share| && share[m] == x;
        assert Returned(unique, wanted)[m] in Returned(unique, wanted);
      }
    }
    StrictlyOrderedUnique((a, b) => Position(unique, a) < Position(unique, b), sorted, share);
  }

  // ---------------------------------------------------------------------
  // The function itself
  // ---------------------------------------------------------------------

  lemma UrlsConcat(a: seq<Source>, b: seq<Source>)
    ensures Urls(a + b) == Urls(a) + Urls(b)
  {
  }

  /** The values of the dictionary, in insertion order. */
  ghost predicate ValuesOf(order: seq<string>, best: map<string, Source>, values: seq<Source>) {
    |values| == |order| && forall i :: 0 <= i < |order| ==> order[i] in best && values[i] == best[order[i]]
  }

  lemma UrlsOfValues(primary: PrimaryScore, seen: seq<Source>, order: seq<string>, best: map<string, Source>,
                     values: seq<Source>)
    requires BestMap(primary, seen, order, best) && ValuesOf(order, best, values)
    ensures Urls(values) == order && Distinct(values)
    ensures forall s :: s in values ==> s.canonicalUrl in best && best[s.canonicalUrl] == s && IsBest(primary, seen, s)
  {
    forall i | 0 <= i < |order| ensures Urls(values)[i] == order[i] {
      assert order[i] in best;
    }
    forall i, j | 0 <= i < j < |values| ensures values[i] != values[j] {
      assert Urls(values)[i] != Urls(values)[j];
    }
  }

  lemma SameMembersDistinctUrls(a: seq<Source>, b: seq<Source>)
    requires Distinct(Urls(a)) && Distinct(b) && forall s :: s in b ==> s in a
    ensures Distinct(Urls(b))
  {
    forall i, j | 0 <= i < j < |b| ensures Urls(b)[i] != Urls(b)[j] {
      assert b[i] in a && b[j] in a;
      var x :| 0 <= x < |a| && a[x] == b[i];
      var y :| 0 <= y < |a| && a[y] == b[j];
      assert Urls(a)[x] == Urls(b)[i] && Urls(a)[y] == Urls(b)[j];
      assert x != y;
    }
  }

  lemma RankedFromMap(primary: PrimaryScore, results: seq<SearchResult>, order: seq<string>, best: map<string, Source>,
                      values: seq<Source>)
    requires BestMap(primary, Candidates(results), order, best) && ValuesOf(order, best, values)
    ensures Ranked(primary, results, Sort((a: Source, b: Source) => RanksBelow(primary, b, a), values))
  {
    var before := (a: Source, b: Source) => RanksBelow(primary, b, a);
    RankIsStrictOrder(primary);
    UrlsOfValues(primary, Candidates(results), order, best, values);
    SortOrdered(before, values);
    SortMembers(before, values);
    SortDistinct(before, values);
    var unique := Sort(before, values);
    SameMembersDistinctUrls(values, unique);
    forall c | c in Candidates(results) ensures c.canonicalUrl in Urls(unique) {
      var k :| 0 <= k < |order| && order[k] == c.canonicalUrl;
      assert values[k] in unique;
      var m :| 0 <= m < |unique| && unique[m] == values[k];
      assert Urls(unique)[m] == Urls(values)[k];
    }
    forall i, j | 0 <= i < j < |unique| ensures !RanksBelow(primary, unique[i], unique[j]) {
      assert !before(unique[j], unique[i]);
    }
  }

  lemma {:induction false} UrlsOfCandidates(results: seq<SearchResult>, query: int)
    ensures forall u :: u in UrlsOf(results, query) ==> u in Urls(Candidates(results))
  {
    if results != [] {
      var front, last := results[..|results| - 1], results[|results| - 1];
      UrlsOfCandidates(front, query);
      UrlsConcat(Candidates(front), last.sources);
    }
  }

  /** The sources of `best_by_url` in rank order, with the dictionaries of the first loop. */
  method RankBest(primary: PrimaryScore, results: seq<SearchResult>)
    returns (best: map<string, Source>, urlsByQuery: map<int, seq<string>>, unique: seq<Source>)
    ensures Ranked(primary, results, unique)
    ensures urlsByQuery.Keys == QueriesOf(results)
    ensures forall q :: q in urlsByQuery ==> urlsByQuery[q] == UrlsOf(results, q)
    ensures forall s :: s in unique ==> s.canonicalUrl in best && best[s.canonicalUrl] == s
  {
    var order;
    order, best, urlsByQuery := CollectBest(primary, results);
    var values := seq(|order|, i requires 0 <= i < |order| && order[i] in best => best[order[i]]);
    unique := Sort((a: Source, b: Source) => RanksBelow(primary, b, a), values);
    RankedFromMap(primary, results, order, best, values);
    BestOfRanked(primary, results, order, best, values, unique);
  }

  /** `_dedupe_and_rank_sources`. */
  method DedupeAndRank(primary: PrimaryScore, results: seq<SearchResult>, maxPerQuery: nat)
    returns (byQuery: map<int, seq<Source>>, unique: seq<Source>)
    ensures Ranked(primary, results, unique)
    ensures byQuery.Keys == QueriesOf(results)
    ensures forall q :: q in byQuery ==>
      byQuery[q] == Share(unique, results, q, maxPerQuery)
  {
    var best, urlsByQuery;
    best, urlsByQuery, unique := RankBest(primary, results);
    byQuery := map[];
    var pending := urlsByQuery.Keys;
    while pending != {}
      invariant pending <= urlsByQuery.Keys && byQuery.Keys == urlsByQuery.Keys - pending
      invariant forall q :: q in byQuery ==>
        byQuery[q] == Share(unique, results, q, maxPerQuery)
    {
      var q :| q in pending;
      ShareOfQuery(primary, results, unique, q);
      var sources := TopOfQuery(unique, best, urlsByQuery[q], maxPerQuery);
      byQuery := byQuery[q := sources];
      pending := pending - {q};
    }
  }

  /** One query's URLs by rank position, looked up again in `best_by_url`. */
  method TopOfQuery(unique: seq<Source>, best: map<string, Source>, urls: seq<string>, maxPerQuery: nat)
    returns (sources: seq<Source>)
    requires forall s :: s in unique ==> s.canonicalUrl in best && best[s.canonicalUrl] == s
    requires Sort((a, b) => Position(unique, a) < Position(unique, b), Dedupe(urls))
          == Urls(Returned(unique, set u | u in urls))
    ensures sources == First(Returned(unique, set u | u in urls), maxPerQuery)
  {
    var ranked := Sort((a, b) => Position(unique, a) < Position(unique, b), Dedupe(urls));
    var share := First(ranked, maxPerQuery);
    ghost var returned := Returned(unique, set u | u in urls);
    ghost var expected := First(returned, maxPerQuery);
    ReturnedUrls(unique, set u | u in urls);
    forall s | s in expected ensures s in unique {
      assert s in returned;
    }
    assert share == Urls(expected);
    sources := LookUp(best, share, expected);
  }

  method LookUp(best: map<string, Source>, urls: seq<string>, ghost expected: seq<Source>)
    returns (sources: seq<Source>)
    requires urls == Urls(expected)
    requires forall s :: s in expected ==> s.canonicalUrl in best && best[s.canonicalUrl] == s
    ensures sources == expected
  {
    sources := [];
    var i := 0;
    while i < |urls|
      invariant 0 <= i <= |urls| && sources == expected[..i]
    {
      assert expected[i] in expected;
      sources := sources + [best[urls[i]]];
      i := i + 1;
    }
  }

  lemma ShareOfQuery(primary: PrimaryScore, results: seq<SearchResult>, unique: seq<Source>, q: int)
    requires Ranked(primary, results, unique)
    ensures Sort((a, b) => Position(unique, a) < Position(unique, b), Dedupe(UrlsOf(results, q)))
         == Urls(Returned(unique, set u | u in UrlsOf(results, q)))
  {
    UrlsOfCandidates(results, q);
    forall u | u in UrlsOf(results, q) ensures u in Urls(unique) {
      var k :| 0 <= k < |Candidates(results)| && Urls(Candidates(results))[k] == u;
      assert Candidates(results)[k] in Candidates(results);
    }
    ShareIsReturned(unique, UrlsOf(results, q));
  }

  lemma BestOfRanked(primary: PrimaryScore, results: seq<SearchResult>, order: seq<string>, best: map<string, Source>,
                     values: seq<Source>, unique: seq<Source>)
    requires BestMap(primary, Candidates(results), order, best) && ValuesOf(order, best, values)
    requires unique == Sort((a: Source, b: Source) => RanksBelow(primary, b, a), values)
    ensures forall s :: s in unique ==> s.canonicalUrl in best && best[s.canonicalUrl] == s
  {
    RankIsStrictOrder(primary);
    SortMembers((a: Source, b: Source) => RanksBelow(primary, b, a), values);
    UrlsOfValues(primary, Candidates(results), order, best, values);
  }

  /** The inner loop: one search result enters `best_by_url` and its query's URL list. */
  method AddResult(primary: PrimaryScore, sources: seq<Source>, ghost seen: seq<Source>, order0: seq<string>,
                   best0: map<string, Source>, urls0: seq<string>)
    returns (order: seq<string>, best: map<string, Source>, urls: seq<string>)
    requires BestMap(primary, seen, order0, best0)
    ensures BestMap(primary, seen + sources, order, best)
    ensures urls == urls0 + Urls(sources)
  {
    order, best, urls := order0, best0, urls0;
    var k := 0;
    assert seen + sources[..0] == seen;
    while k < |sources|
      invariant 0 <= k <= |sources|
      invariant BestMap(primary, seen + sources[..k], order, best)
      invariant urls == urls0 + Urls(sources[..k])
    {
      var source := sources[k];
      var url := source.canonicalUrl;
      assert seen + sources[..k + 1] == (seen + sources[..k]) + [source];
      assert Urls(sources[..k + 1]) == Urls(sources[..k]) + [url];
      BestMapStep(primary, seen + sources[..k], order, best, source);
      urls := urls + [url];
      if url !in best {
        order := order + [url];
        best := best[url := source];
      } else if RanksBelow(primary, best[url], source) {
        best := best[url := source];
      }
      k := k + 1;
    }
    assert sources[..k] == sources;
  }

  function UrlsAt(urlsByQuery: map<int, seq<string>>, query: int): seq<string> {
    if query in urlsByQuery then urlsByQuery[query] else []
  }

  ghost predicate HoldsUrls(done: seq<SearchResult>, urlsByQuery: map<int, seq<string>>, query: int) {
    UrlsAt(urlsByQuery, query) == UrlsOf(done, query)
  }

  /** The URL lists per query after some results. */
  ghost predicate UrlMap(done: seq<SearchResult>, urlsByQuery: map<int, seq<string>>) {
    && urlsByQuery.Keys == QueriesOf(done)
    && forall q :: HoldsUrls(done, urlsByQuery, q)
  }

  lemma QueriesSnoc(results: seq<SearchResult>, last: SearchResult)
    ensures QueriesOf(results + [last]) == QueriesOf(results) + {last.queryIndex}
  {
  }

  lemma UrlsOfSnoc(results: seq<SearchResult>, r: SearchResult, query: int)
    ensures UrlsOf(results + [r], query) == UrlsOf(results, query) + if r.queryIndex == query then Urls(r.sources)
      else []
  {
    assert (results + [r])[..|results|] == results;
  }

  lemma UrlMapStep(done: seq<SearchResult>, r: SearchResult, urlsByQuery: map<int, seq<string>>)
    requires UrlMap(done, urlsByQuery)
    ensures UrlMap(done + [r], urlsByQuery[r.queryIndex := UrlsAt(urlsByQuery, r.queryIndex) + Urls(r.sources)])
  {
    var next := urlsByQuery[r.queryIndex := UrlsAt(urlsByQuery, r.queryIndex) + Urls(r.sources)];
    QueriesSnoc(done, r);
    forall q ensures HoldsUrls(done + [r], next, q) {
      assert HoldsUrls(done, urlsByQuery, q);
      UrlsOfSnoc(done, r, q);
    }
  }

  /** The two nested loops that fill `best_by_url` and `urls_by_query`. */
  method CollectBest(primary: PrimaryScore, results: seq<SearchResult>)
    returns (order: seq<string>, best: map<string, Source>, urlsByQuery: map<int, seq<string>>)
    ensures BestMap(primary, Candidates(results), order, best)
    ensures urlsByQuery.Keys == QueriesOf(results)
    ensures forall q :: q in urlsByQuery ==> urlsByQuery[q] == UrlsOf(results, q)
  {
    order, best, urlsByQuery := [], map[], map[];
    var n := 0;
    while n < |results|
      invariant 0 <= n <= |results|
      invariant BestMap(primary, Candidates(results[..n]), order, best)
      invariant UrlMap(results[..n], urlsByQuery)
    {
      var result := results[n];
      assert results[..n + 1][..n] == results[..n];
      var queryUrls := UrlsAt(urlsByQuery, result.queryIndex);
      UrlMapStep(results[..n], result, urlsByQuery);
      assert results[..n + 1] == results[..n] + [result];
      order, best, queryUrls := AddResult(primary, result.sources, Candidates(results[..n]), order, best, queryUrls);
      urlsByQuery := urlsByQuery[result.queryIndex := queryUrls];
      n := n + 1;
    }
    assert results[..n] == results;
    assert forall q :: q in urlsByQuery ==> HoldsUrls(results, urlsByQuery, q);
  }
}
