# Nycti protocols in Dafny

Nycti is a Discord bot. This project models its in-memory protocols, its budgets and its text and evidence pipelines,
and proves what each of them keeps: over every call, over every run, or for every input. Each module is one theory and
follows one source file or one group of files that work together.

| module | models |
|---|---|
| `ActionConfirmation`, `ActionPreview` | the propose, confirm, consume store, and the preview literal with a decoder for it |
| `ResearchQueries`, `ResearchSources`, `ResearchCitations`, `ResearchRun` | the deep-research pipeline: query plan, ranking, payload, reduction, citations, and the whole run |
| `EvidenceLedger`, `EvidenceGuidance` | the evidence ledger and its announcement to the model |
| `AgentTools`, `AgentLoop` | the selection of tool calls and the bounded agent loop |
| `BackgroundWorker` | the single-consumer bounded queue |
| `EmojiUsage` | live emoji counters and historical floors on one bounded table |
| `SpendLedger` | reserve and finish of the bounded benchmark |
| `ArtifactSanitizer` | the sanitiser and serializer of failure artifacts |
| `MessageChunks` | the splitting of a reply into messages |
| `DiagnosticCache` | the bounded diagnostic cache and its index |
| `Ipv4Spelling` | legacy IPv4 spellings |
| `ScenarioReplay` | benchmark scenario order, selection and history |
| `Collections`, `Wrappers`, `Json`, `PyText`, `PySort` | shared Python notions: slices, options, JSON string literals, strings, the stable sort |

Objects that the source updates in place are classes whose methods are proved against functions or relations on their
contents; what is promised over whole runs is proved about those functions and relations. The model, the tools, the
clock, hashes and fresh tokens are inputs. `dafny verify dfyconfig.toml` checks everything.

## What is proved, in short

* A preview decodes to exactly the text it shows; it holds no live Markdown marker, no live mention and nothing
  invisible.
* A confirmed action was proposed and confirmed by the same user in the same place, in time and unchanged, and is carried
  out at most once. A confirmation or a consumption succeeds exactly when the run's history entitles the caller to it.
* A query plan has between `min_queries` and `max_queries` distinct queries whatever the planner does.
* A citation `[Sn]` that reaches the reader, unless n has three or more digits, names the source that the reducing model
  saw under that number; that source's own block, beginning with the number, the title and the URL, stands in the same
  text; and the query's own search returned that URL.
* The one-pass evidence ledger is the declarative one, which is unique.
* An evidence id first announced with source count n is announced at most 2n times.
* The agent loop terminates; its model calls, continuations and weighted tool cost stay within their budgets, and every
  call is let through before its deadline; no tool request runs twice, and none that was not offered. Each turn that is
  corrected spends a correction of a kind not used before, so at most one draft and one unusable text are sent back.
* The worker loses no job, delivers in order, and is settled after `close`.
* The spend ledger never charges past its limit and covers the true spend.
* The sanitiser terminates and leaves no rejected key at any depth, and none in what its `_json` strings decode to unless
  redaction puts it there.

## Where the code does less than it might seem to promise

* Fallback queries can exceed `max_query_chars` when that limit, which may be as low as 40, is below 53:
  `ResearchQueries.FallbackFitsIff` gives the exact condition and `ResearchQueries.CollisionOverflows` a question that
  shows it.
* Of the citations in a reduction's summary, only those of one or two digits are checked, so the summary
  `A [S1]. B [S123].` is shown although `[S123]` names nothing (`ResearchCitations.LongCitationSlips`). All citations of a
  run are sound exactly when no summary that is shown holds one of three or more digits
  (`ResearchCitations.CitationsKeepTheirSource`, `ResearchRun.RunIsSoundIff`).
* Reactions, unlike messages, can be counted twice: a merge replaces `history_uses`, and a reaction it forgets counts
  again (`EmojiUsage.ReactionsCanOvercount`). While redelivered reactions are remembered they are not over-counted
  (`EmojiUsage.RememberedReactionsNeverOvercount`).
* The diagnostic cache is the end of the log cut by the largest cutoff exactly when nothing is recorded behind an earlier
  cutoff (`DiagnosticCache.CacheIsCutLogIff`).
* A `_json` string that was not JSON can be made JSON by redaction, which puts quotes around a secret, and then keeps its
  keys: `ArtifactSanitizer.RedactionCanExpose` gives such a text, `ArtifactSanitizer.JsonStringCleanIff` the exact
  condition for one string, and `ArtifactSanitizer.JsonStringsAreClean` the law for whole values without such texts.
* The IPv4 parser raises, instead of returning nothing, exactly on a host name that spells a negative number
  (`Ipv4Spelling.RaisesIff`), which takes a part that starts with a zero and holds a minus sign
  (`Ipv4Spelling.RaisesOnlyWithMinus`); `0-1` is one (`Ipv4Spelling.SignedPartRaises`).
* Settling a reservation twice would break the spend limit; the guarded call is what prevents it
  (`SpendLedger.FinishingTwiceBreaksLimit`).

## Model

| member | source | states |
|---|---|---|
| `ActionConfirmation.ActionConfirmationStore.PruneAt` | src/nycti/chat/action_confirmation.py:317-327 | exactly the expired proposals and capabilities are dropped |
| `ActionConfirmation.ActionConfirmationStore.Propose` | src/nycti/chat/action_confirmation.py:101-146 | the new contents and the result, with every rejection, as the specification step gives them |
| `ActionConfirmation.ActionConfirmationStore.Confirm` | src/nycti/chat/action_confirmation.py:148-180 | the new contents and the result: a pending proposal of the same user, server and channel becomes a capability |
| `ActionConfirmation.ActionConfirmationStore.Consume` | src/nycti/chat/action_confirmation.py:182-207 | the new contents and the result: a capability is removed and its proposal returned |
| `ActionConfirmation.StepConfirms` | src/nycti/chat/action_confirmation.py:148-180 | one call confirms exactly on a stored, unexpired proposal that belongs to the caller |
| `ActionConfirmation.StepConsumes` | src/nycti/chat/action_confirmation.py:182-207 | one call consumes exactly on a stored, unexpired capability that belongs to the caller |
| `ActionConfirmation.CallsKeepUnexpiredEntries` | src/nycti/chat/action_confirmation.py:111-207 | a rejected call removes no unexpired entry; an accepted one removes at most the entry it used |
| `ActionConfirmation.RunExists` | src/nycti/chat/action_confirmation.py:101-207 | every sequence of calls at any clock values has a run, so the run theorems speak about all of them |
| `ActionConfirmation.StoredIffPending` | src/nycti/chat/action_confirmation.py:145-172 | a proposal is in the store exactly until its deadline is seen or it is confirmed |
| `ActionConfirmation.StoredIffUsable` | src/nycti/chat/action_confirmation.py:179-206 | a capability is in the store exactly until its deadline is seen or it is consumed |
| `ActionConfirmation.ConfirmSucceedsIff` | src/nycti/chat/action_confirmation.py:148-180 | over a run, a confirmation succeeds exactly when an earlier call proposed it for this caller and it is still pending; it returns that proposal unchanged |
| `ActionConfirmation.ConsumeSucceedsIff` | src/nycti/chat/action_confirmation.py:182-207 | over a run, a consumption succeeds exactly when an earlier call confirmed it for this caller and it is still usable |
| `ActionConfirmation.ConsumptionIsAuthorized` | src/nycti/chat/action_confirmation.py:101-231 | what is consumed was proposed, then confirmed, by the same user in the same place, within both deadlines, with its payload unchanged |
| `ActionConfirmation.ConfirmedAtMostOnce` | src/nycti/chat/action_confirmation.py:172-180 | no proposal yields two capabilities |
| `ActionConfirmation.TokenConsumedAtMostOnce` | src/nycti/chat/action_confirmation.py:206-207 | no capability is consumed twice |
| `ActionConfirmation.ConsumedAtMostOnce` | src/nycti/chat/action_confirmation.py:101-207 | no proposal is carried out twice |
| `ActionConfirmation.PendingBounded` | src/nycti/chat/action_confirmation.py:123-133 | no user holds more than `max_pending` proposals in a server, whatever the clock does |
| `ActionPreview.StagedEqualsOnePass` | src/nycti/chat/action_confirmation.py:411-430 | the passes of escaping and replacing over the whole text equal one pass that prints each character on its own |
| `ActionPreview.PreviewRoundTrip` | src/nycti/chat/action_confirmation.py:411-430 | a decoder recovers every text from its preview |
| `ActionPreview.PreviewInjective` | src/nycti/chat/action_confirmation.py:411-430 | different texts have different previews |
| `ActionPreview.PreviewIsInert` | src/nycti/chat/action_confirmation.py:411-430 | in a preview every marker follows an odd run of backslashes, every `@` is followed by a written zero-width space, and nothing invisible is left |
| `Json.HexRoundTrip` | src/nycti/chat/action_confirmation.py:426-430 | the hexadecimal digits of a code point are read back |
| `ResearchQueries.ParseQueries` | src/nycti/chat/deep_research.py:873-889 | the loop keeps the first `max_queries` cleaned queries that differ when folded |
| `ResearchQueries.BuildFallback` | src/nycti/chat/deep_research.py:892-907 | the loop builds the capped question followed by the first unused suffixed variants |
| `ResearchQueries.FillUp` | src/nycti/chat/deep_research.py:910-924 | the loop appends unused fallbacks until there are enough |
| `ResearchQueries.FallbackSize` | src/nycti/chat/deep_research.py:892-907 | the fallback list always has exactly `min_queries` distinct queries |
| `ResearchQueries.FillSize` | src/nycti/chat/deep_research.py:910-924 | a short plan is filled to exactly `min_queries` distinct queries and stays in front |
| `ResearchQueries.UnseenAtLeast` | src/nycti/chat/deep_research.py:892-924 | pigeonhole: the queries used so far block at most one candidate each |
| `ResearchQueries.CandidatesDistinct` | src/nycti/chat/deep_research.py:892-907 | the suffixed variants of a question differ when folded, however the question was cut |
| `ResearchQueries.PlanQueries` | src/nycti/chat/deep_research.py:370-470 | on every planner outcome the plan has between `min_queries` and `max_queries` queries, distinct when folded, and tells whether the fallback was used |
| `ResearchQueries.FallbackFitsIff` | src/nycti/chat/deep_research.py:81-112 | all fallback queries respect `max_query_chars` for every question exactly when that limit is at least 53 |
| `ResearchQueries.CollisionOverflows` | src/nycti/chat/deep_research.py:892-907 | below 53, a question that is its own first fallback pushes the plan to a query that is too long |
| `PyText.CapTextFits` | src/nycti/chat/deep_research.py:1152-1156 | a capped text keeps to its limit when the limit leaves room for the dots |
| `PySort.SortOrdered` | src/nycti/chat/evidence.py:148-151 | the stable sort is ordered and a permutation |
| `PySort.StrictlyOrderedUnique` | src/nycti/chat/evidence.py:148-152 | a strictly ordered list is determined by its members |
| `ResearchSources.CollectBest` | src/nycti/chat/deep_research.py:957-972 | the nested loops keep, for each URL, the first candidate that no other outranks, and each query's URLs |
| `ResearchSources.DedupeAndRank` | src/nycti/chat/deep_research.py:957-985 | each URL once, with an unbeaten source, best first; each query gets the first `max_sources_per_query` ranked sources that it returned |
| `ResearchSources.TopOfQuery` | src/nycti/chat/deep_research.py:976-984 | sorting a query's URLs by rank position and looking them up yields its share of the ranked list |
| `ResearchSources.RankedFromMap` | src/nycti/chat/deep_research.py:973-975 | sorting the dictionary's values gives the ranked list of the declarative description |
| `ResearchSources.ShareIsReturned` | src/nycti/chat/deep_research.py:976-984 | the URLs of a query in rank order are exactly the ranked sources it returned |
| `ResearchSources.RankIsStrictOrder` | src/nycti/chat/deep_research.py:988-994 | the rank tuple is a strict weak order, so the stable sort is meaningful |
| `ResearchCitations.SourcePayload` | src/nycti/chat/deep_research.py:1024-1062 | entries in source order under the numbers S1, S2 and so on while they fit; the first that does not is shortened or dropped and ends the payload |
| `ResearchCitations.ShortenExcerpt` | src/nycti/chat/deep_research.py:1045-1058 | the loop that trims an excerpt stops when the payload fits or 120 characters are left |
| `ResearchCitations.PayloadNumbers` | src/nycti/chat/deep_research.py:1024-1062 | entry k of the payload is source k under the number k |
| `ResearchCitations.LabelInjective` | src/nycti/chat/deep_research.py:1024-1062 | different sources have different numbers |
| `ResearchCitations.SurvivingSummary` | src/nycti/chat/deep_research.py:1065-1091 | in a surviving summary every citation, however many digits it has, names a selected payload entry exactly when none has three or more digits |
| `ResearchCitations.LongCitationSlips` | src/nycti/chat/deep_research.py:1065-1091 | the reply `A [S1]. B [S123].` with the id `S1` is shown as it is, and `S123` names no payload entry |
| `ResearchCitations.Assemble` | src/nycti/chat/deep_research.py:839-864 | the loop computes the specified assembly: each block with exactly the room that is left, until fewer than 80 characters of excerpt fit |
| `ResearchCitations.AssemblyIsAssembled` | src/nycti/chat/deep_research.py:839-865 | the assembly is a prefix of the selection, ends only when the next block has no room for 80 characters, and keeps the text within `max_chars` when any block is in it |
| `ResearchCitations.RenderEvidence` | src/nycti/chat/deep_research.py:830-870 | the summary is shown exactly when every selected source has its block; otherwise it is dropped and the blocks are assembled without it |
| `ResearchCitations.NyctiLayout` | src/nycti/chat/deep_research.py:830-870 | every block prefix begins with the number, the title and the URL of its source, the summary is one of the header lines, and a capped excerpt fits its room |
| `ResearchCitations.ContentHolds` | src/nycti/chat/deep_research.py:839-865 | the text of an outcome holds its summary and every one of its blocks |
| `ResearchCitations.BuildOutcome` | src/nycti/chat/deep_research.py:736-827 | the specified outcome of one query from its sources, extracts and reduction |
| `ResearchCitations.OutcomeShowsAll` | src/nycti/chat/deep_research.py:780-827 | an outcome with evidence shows the whole summary with a block for every selected source, or no summary, in a text within its limit |
| `ResearchCitations.CollectReductions` | src/nycti/chat/deep_research.py:313-352 | each query with evidence is reduced from the payload of its own sources |
| `ResearchCitations.CitationsKeepTheirSource` | src/nycti/chat/deep_research.py:780-870 | exactly when no citation of three or more digits is shown, every shown citation names the source that had this number in the payload, and a block that begins with this number and with that source's title and URL stands in the text of the outcome, as the summary does |
| `ResearchCitations.EvidenceIsDistinct` | src/nycti/chat/deep_research.py:976-985 | a query's share of the ranking holds no source twice, as the rendering needs |
| `ResearchCitations.ResearchOutcomes` | src/nycti/chat/deep_research.py:327-352 | over all queries, each outcome is the specified one for its own evidence, payload and reply, and its citations are sound exactly when none of three or more digits is shown; queries and evidence without repetitions come from `ResearchRun.Answer` |
| `ResearchRun.EvidenceIsUsable` | src/nycti/chat/deep_research.py:313-325 | a query's evidence has no source twice, and each of its sources is ranked, was returned by that query and has some text |
| `ResearchRun.Gather` | src/nycti/chat/deep_research.py:291-325 | the ranked sources, the extracts and, for each query, the part of its share that has text |
| `ResearchRun.Research` | src/nycti/chat/deep_research.py:268-368 | the whole run, whatever the planner, the web and the model do: the plan keeps its size, the ranking its order, each query is answered from its own share, and its citations are sound exactly when none of three or more digits is shown; a blank question or a timeout that is not positive is refused |
| `ResearchRun.RunIsSoundIff` | src/nycti/chat/deep_research.py:268-368 | all citations of a run are sound exactly when no outcome shows one of three or more digits |
| `ResearchRun.CitationTracesBack` | src/nycti/chat/deep_research.py:268-368 | in an outcome that shows no citation of three or more digits, every citation leads to a source whose URL that query's search returned, which no candidate for the URL outranks, and whose numbered block with title and URL is in the text |
| `EvidenceLedger.CollectSources` | src/nycti/chat/evidence.py:282-297 | the first cleaned URL of each normal form, or the pseudo-source of the tool call |
| `EvidenceLedger.AddOutcome` | src/nycti/chat/evidence.py:107-147 | one usable outcome enters the dictionary, which stays the table of best candidates |
| `EvidenceLedger.EntriesStep` | src/nycti/chat/evidence.py:130-147 | storing a candidate keeps every key's entry the best one seen, at its place of first appearance |
| `EvidenceLedger.FromOutcomes` | src/nycti/chat/evidence.py:85-152 | one item per source key of the usable outcomes, the best by source count and then recency, ordered by source count and first appearance, cut to `max_items`; bad limits are errors |
| `EvidenceLedger.LedgerUnique` | src/nycti/chat/evidence.py:85-152 | the declarative description has exactly one ledger |
| `EvidenceLedger.StreamHasNoTies` | src/nycti/chat/evidence.py:282-297 | two candidates for one key never come from the same outcome, so the choice never ties |
| `EvidenceLedger.AppendingSharpens` | src/nycti/chat/evidence.py:85-152 | more outcomes never raise a key's source count and never move its first appearance |
| `EvidenceLedger.EarlierIdsStay` | src/nycti/chat/evidence.py:148-152 | while the keys fit in `max_items` no earlier evidence id disappears |
| `EvidenceGuidance.RenderBounded` | src/nycti/chat/evidence.py:178-217 | the items shown are the longest prefix whose whole text fits; an empty ledger and a tiny limit are answered as in the code |
| `EvidenceGuidance.FitsUpToFound` | src/nycti/chat/evidence.py:202-213 | stopping at the first item that does not fit finds the longest fitting prefix |
| `EvidenceGuidance.RenderedUnique` | src/nycti/chat/evidence.py:178-217 | the longest fitting prefix determines the rendering |
| `EvidenceGuidance.GuidanceRun.Append` | src/nycti/chat/evidence_enforcement.py:53-76 | only items better than what is recorded are offered; what is shown is recorded and one message is appended |
| `EvidenceGuidance.GuidedKeepsInv` | src/nycti/chat/evidence_enforcement.py:53-76 | every announcement of an id strictly raises its recorded quality |
| `EvidenceGuidance.AnnouncementsBounded` | src/nycti/chat/evidence_enforcement.py:53-76 | over any run an id first announced with source count n and precision p is announced at most 2n - p times |
| `EvidenceGuidance.NothingNewNothingSaid` | src/nycti/chat/evidence_enforcement.py:60-67 | a ledger without improvements changes nothing |
| `EvidenceGuidance.LedgerIsGuidable` | src/nycti/chat/evidence.py:85-152 | ledgers have distinct evidence ids when the hashes of their keys do not collide, and positive source counts |
| `AgentTools.SelectFresh` | src/nycti/chat/tool_flow.py:19-64 | the loop keeps exactly the fresh calls and skips the others one by one |
| `AgentTools.FreshIsUnrepeated` | src/nycti/chat/tool_flow.py:41-63 | fresh calls are offered, new to the run and pairwise different, with at most one channel-context read |
| `AgentTools.DroppedForAReason` | src/nycti/chat/tool_flow.py:31-63 | a new call is only dropped in favour of an earlier equivalent one of the same batch |
| `AgentTools.SelectWithinBudget` | src/nycti/chat/tool_budget.py:71-125 | the loop selects the batch of the specification |
| `AgentTools.SelectionWithinLimits` | src/nycti/chat/tool_budget.py:71-125 | the batch stays within the cost units and the deep-research calls left, and its totals are those of its calls |
| `AgentTools.SelectionPartitions` | src/nycti/chat/tool_budget.py:120-125 | every call is either executable or skipped |
| `AgentTools.SkippedDoNotFit` | src/nycti/chat/tool_budget.py:87-115 | a skipped call could not be added to the finished batch either |
| `AgentLoop.AgentRun.UseCorrection` | src/nycti/chat/run_state.py:197-202 | a correction is granted exactly when its kind is unused and the budget lasts; the count stays the number of kinds used |
| `AgentLoop.AgentRun.CallModel` | src/nycti/chat/model_runner.py:38-93 | an attempt is made with the run's messages, let through by a clock reading before its deadline, and counts as a turn only when it answers |
| `AgentLoop.AgentRun.ContinueOnce` | src/nycti/chat/finalization.py:123-176 | a continuation is made exactly when the answer looks unfinished, the budget lasts and time is left; the messages are restored on every path, cancellation included; the answer follows from what the call yields |
| `AgentLoop.AgentRun.FinalizeRun` | src/nycti/chat/finalization.py:26-95 | one final call, left out only when no time is left, leads to a recovered answer or to the fallback |
| `AgentLoop.AgentRun.ExecuteBatch` | src/nycti/chat/tool_flow.py:74-154 | after a batch the counters agree with the calls executed and its results are kept; a timeout sets the deadline as stop reason |
| `AgentLoop.AgentRun.AfterBatch` | src/nycti/chat/orchestrator.py:271-288 | when every call of the turn was answered by a terminal direct reply, the direct replies of the whole run are delivered, each once; otherwise an exhausted budget stops the loop, or it goes on |
| `AgentLoop.AgentRun.RejectDuplicates` | src/nycti/chat/orchestrator.py:225-238 | going on spends the duplicate correction, not used before, and says its prompt; otherwise the loop stops for that reason |
| `AgentLoop.AgentRun.RequestRepair` | src/nycti/chat/evidence_enforcement.py:227-241 | a draft is sent back only for a repair correction not used before, with the draft and the prompt appended; otherwise nothing changes |
| `AgentLoop.BatchIsSafe` | src/nycti/chat/orchestrator.py:219-256 | the two filters keep every executed request unique, offered and within the weighted budget |
| `AgentLoop.BatchIsCounted` | src/nycti/chat/tool_budget.py:27-44 | the recorded tool calls, cost units and deep-research calls are those of the executed batch and within their budgets |
| `AgentLoop.AgentRun.HandleToolTurn` | src/nycti/chat/orchestrator.py:217-288 | a tool turn goes on, stops for a reason read off the state, delivers server-rendered replies, or is aborted; going on without a fresh call spends the duplicate correction, and nothing else spends one |
| `AgentLoop.AgentRun.HandleDraft` | src/nycti/chat/orchestrator.py:289-331 | a draft goes back exactly when a repair correction, not used before, is spent on it; otherwise its text is delivered, with what at most one continuation adds |
| `AgentLoop.AgentRun.HandleEmptyTurn` | src/nycti/chat/orchestrator.py:333-350 | an unusable turn goes back exactly when its correction, not used before, is spent on it, and ends the loop otherwise |
| `AgentLoop.AgentRun.ModelStep` | src/nycti/chat/orchestrator.py:186-350 | one iteration adds one attempt; it goes on only with one more completed turn, after a batch of tools, a budget recovery or the one correction that turn needs, which is spent |
| `AgentLoop.AgentRun.RunLoop` | src/nycti/chat/orchestrator.py:186-357 | the loop terminates within `max_model_turns` attempts, each let through before the work deadline, and leaves a stop reason that the state explains and a record of how each earlier turn was followed |
| `AgentLoop.AgentRun.RunChat` | src/nycti/chat/orchestrator.py:186-383 | for every behaviour of model, tools and clock: at most `max_model_turns` + 2 model calls, or + 1 without continuations, in the order replies, final, continuation, each let through before its deadline; corrections are of different kinds, within their budget, with their prompts in the conversation, and no more drafts and unusable texts went back than corrections; a stop reason is set; the status tells delivery from finalisation, and the answer is the last draft or the final text with its continuation, or the direct replies; the tool invariants hold |
| `AgentLoop.CorrectedOncePerKind` | src/nycti/chat/run_state.py:197-202 | the corrections made are of different kinds, as many as the counter and the set say, and within the budget |
| `AgentLoop.StepsCorrectOnce` | src/nycti/chat/orchestrator.py:217-350 | among the replies the loop went on from, at most one was a draft and at most one an unusable text, and together they are no more than the corrections |
| `AgentLoop.PromptsStand` | src/nycti/chat/orchestrator.py:226-348 | the prompts of the corrections stand in the conversation, in order |
| `AgentLoop.AllInTime` | src/nycti/chat/run_state.py:173-182 | replies are let through before the work deadline, final and continuation calls before the total one |
| `AgentLoop.ContinuationShape` | src/nycti/chat/orchestrator.py:305-318 | a delivered draft adds at most one continuation to the transcript |
| `AgentLoop.FinalShape` | src/nycti/chat/finalization.py:48-95 | finalisation adds nothing, one final call, or an answered final call and a continuation |
| `AgentLoop.RecoveredText` | src/nycti/chat/finalization.py:71-95 | a recovered answer is the text of the final call, with what a continuation adds |
| `AgentLoop.UnrepeatedConcat` | src/nycti/chat/tool_flow.py:41-63 | a new batch repeats no request of the run |
| `BackgroundWorker.BoundedBackgroundWorker.constructor` | src/nycti/background_worker.py:25-33 | the queue holds at least one job and starts empty |
| `BackgroundWorker.BoundedBackgroundWorker.Start` | src/nycti/background_worker.py:39-44 | a closed worker refuses; otherwise a task runs |
| `BackgroundWorker.BoundedBackgroundWorker.Submit` | src/nycti/background_worker.py:46-53 | a job is queued unless the worker is closed or the queue is full |
| `BackgroundWorker.BoundedBackgroundWorker.Take` | src/nycti/background_worker.py:82-84 | the consumer takes the oldest job |
| `BackgroundWorker.BoundedBackgroundWorker.Settle` | src/nycti/background_worker.py:85-95 | however the handler ends, the job in hand is settled once |
| `BackgroundWorker.BoundedBackgroundWorker.EndClose` | src/nycti/background_worker.py:73-79 | the task is forgotten and the queue emptied, each job settled |
| `BackgroundWorker.StepKeepsInv` | src/nycti/background_worker.py:39-95 | each step keeps: accepted = finished + failed + cancelled + discarded + queued + in hand, the unfinished count, the bound of the queue |
| `BackgroundWorker.RunKeepsInv` | src/nycti/background_worker.py:39-95 | the conservation law holds at every point of every interleaving |
| `BackgroundWorker.DeliveredInOrder` | src/nycti/background_worker.py:46-90 | what the handler got is a prefix of what was accepted, in submission order |
| `BackgroundWorker.NothingAcceptedAfterClose` | src/nycti/background_worker.py:39-59 | once `close` has begun every submission is refused |
| `BackgroundWorker.ClosedIsSettled` | src/nycti/background_worker.py:58-79 | after `close` the queue is empty and the unfinished count is zero, for good |
| `EmojiUsage.HistoricalEmoji.Add` | src/nycti/emoji_backfill.py:28-33 | at most 64 distinct uses are kept, and the last message covers every message scanned |
| `EmojiUsage.Evict` | src/nycti/emoji_learning.py:175-178 | the oldest unmanaged entries go, just enough of them, and nothing else changes; it fails exactly with more than 200 managed entries |
| `EmojiUsage.MergeSources` | src/nycti/emoji_backfill.py:115-136 | each scanned emoji's counters are raised to the floors of its scan |
| `EmojiUsage.EmojiLearning.Commit` | src/nycti/emoji_catalog.py:78-84 | the update runs on a copy, which is saved unless the eviction raised |
| `EmojiUsage.EmojiLearning.Record` | src/nycti/emoji_learning.py:156-180 | a use that is remembered is ignored; another is counted once; a failing eviction changes nothing |
| `EmojiUsage.EmojiLearning.Merge` | src/nycti/emoji_backfill.py:110-140 | the whole table after a merge |
| `EmojiUsage.MessagesNeverOvercount` | src/nycti/emoji_learning.py:156-180 | over every interleaving the total is the sum of both counters, and messages are at most the distinct messages delivered or scanned |
| `EmojiUsage.RedeliveredMessageIgnored` | src/nycti/emoji_learning.py:159-163 | a message delivered or scanned before changes nothing while the entry stays |
| `EmojiUsage.RepeatedMergeKeepsCounters` | src/nycti/emoji_backfill.py:122-136 | a scan merged again changes no counter while the entry stays |
| `EmojiUsage.ReactionCountedIff` | src/nycti/emoji_learning.py:159-163 | a reaction leaves the counter alone exactly while its key is in one of the two windows |
| `EmojiUsage.RememberedReactionsNeverOvercount` | src/nycti/emoji_learning.py:156-180 | reactions are not over-counted either while redelivered ones are remembered |
| `EmojiUsage.ReactionsCanOvercount` | src/nycti/emoji_backfill.py:135 | replacing the history can make a reaction count twice |
| `SpendLedger.LedgerFile.Reserve` | scripts/run_bounded_market_ab.py:49-79 | every rejection of a request, and the appended row otherwise |
| `SpendLedger.LedgerFile.Finish` | scripts/run_bounded_market_ab.py:81-94 | the row is settled, or the file unchanged when the usage exceeds its bound |
| `SpendLedger.ChargedNeverExceedsLimit` | scripts/run_bounded_market_ab.py:67-79 | under every interleaving of guarded calls the sum charged stays within the limit |
| `SpendLedger.TrueSpendWithinLimit` | scripts/run_bounded_market_ab.py:49-121 | if usage respects its bounds, the true spend, of calls in flight too, is covered by what is charged |
| `SpendLedger.RowsAreAppendOnly` | scripts/run_bounded_market_ab.py:71-94 | a row keeps its place, bounds and reservation, and never changes after its call ended |
| `SpendLedger.FinishingTwiceBreaksLimit` | scripts/run_bounded_market_ab.py:106-121 | a second settlement of an index could break the limit |
| `ArtifactSanitizer.Sanitize` | src/nycti/live_benchmark_storage.py:375-459 | the recursion terminates although it decodes text and starts over, because the result nests no deeper than its input |
| `ArtifactSanitizer.SanitizedIsClean` | src/nycti/live_benchmark_storage.py:375-466 | no rejected key remains at any depth of the value, nor in any text the sanitiser rendered |
| `ArtifactSanitizer.JsonStringsAreClean` | src/nycti/live_benchmark_storage.py:375-490 | below every `_json` key of the result, through lists and inside decoded texts too, a text that decodes decodes to a value without rejected keys, for every value whose `_json` texts redaction does not expose |
| `ArtifactSanitizer.SanitizeIsFine` | src/nycti/live_benchmark_storage.py:375-490 | the result keeps this when it is sanitised again under smaller limits, as the bounded strings and the serializer do |
| `ArtifactSanitizer.JsonStringIsRendered` | src/nycti/live_benchmark_storage.py:427-445 | one `_json` string that decodes becomes the rendering of a clean value |
| `ArtifactSanitizer.JsonStringCleanIff` | src/nycti/live_benchmark_storage.py:424-447 | one `_json` string decodes to a clean value afterwards exactly unless redaction turned a text that was no JSON into JSON with a rejected key |
| `ArtifactSanitizer.RedactionCanExpose` | src/nycti/live_benchmark_storage.py:446-447 | `{"token": x, "user_id": 1}` is such a text: sanitised below `x_json`, it decodes to a mapping with `user_id` |
| `ArtifactSanitizer.BoundedJson` | src/nycti/live_benchmark_storage.py:473-495 | the bounded string is a rendering that nests no deeper than the value and is no longer than the limit, or than the fixed last resort if that is longer |
| `ArtifactSanitizer.SerializeArtifact` | src/nycti/live_benchmark_storage.py:224-288 | at most 240000 bytes at every stage; except where only a preview is left, a clean value, and clean `_json` strings when redaction exposes nothing in the payload |
| `ArtifactSanitizer.BoundPreview` | src/nycti/live_benchmark_storage.py:275-288 | halving the preview ends with an artifact that fits |
| `ArtifactSanitizer.OwnKeysAreKept` | src/nycti/live_benchmark_storage.py:463-466 | the keys that the sanitiser and the serializer add are not among the rejected ones |
| `MessageChunks.CutLine` | src/nycti/formatting.py:503-507 | a line is cut into full pieces and a rest, saying the same |
| `MessageChunks.SplitLargeBlock` | src/nycti/formatting.py:492-510 | the chunks are non-empty, fit and say what the block says |
| `MessageChunks.SplitMessageChunks` | src/nycti/formatting.py:282-307 | for a text that is not blank: non-empty chunks that fit, with its visible characters in order, and every block that fits whole in one chunk; a blank text gives one empty chunk |
| `MessageChunks.BlocksRoundTrip` | src/nycti/formatting.py:288 | joining the blocks gives the text back |
| `MessageChunks.SplitLinesKeepsInk` | src/nycti/formatting.py:495 | splitting into lines loses only line breaks |
| `MessageChunks.LinesHaveNoBreak` | src/nycti/formatting.py:495 | no line holds a line break |
| `DiagnosticCache.ResponseDiagnosticCache.Prune` | src/nycti/feedback.py:101-113 | the last `max_entries` snapshots that are not older than the cutoff remain, and the index is rebuilt for them |
| `DiagnosticCache.ResponseDiagnosticCache.Record` | src/nycti/feedback.py:72-77 | the snapshot is appended with its message ids deduplicated, then pruned; the index agrees with the snapshots |
| `DiagnosticCache.ResponseDiagnosticCache.Find` | src/nycti/feedback.py:79-99 | the result is what a search of the retained snapshots, newest first, finds |
| `DiagnosticCache.IndexedAppend` | src/nycti/feedback.py:109-113 | entering snapshots in order makes the index agree with a newest-first search |
| `DiagnosticCache.FoundIsNewestMatch` | src/nycti/feedback.py:88-99 | the newest match is returned unless a referenced message belongs to another channel |
| `DiagnosticCache.NothingFound` | src/nycti/feedback.py:88-99 | without a match nothing is returned |
| `DiagnosticCache.CacheIsCutLog` | src/nycti/feedback.py:72-113 | with captures in time order and none behind an earlier cutoff, the cache is the end of the log cut by the largest cutoff |
| `DiagnosticCache.CacheIsCutLogIff` | src/nycti/feedback.py:72-113 | with captures in time order this holds throughout a run exactly when no recording is late |
| `Ipv4Spelling.ParseIpAddress` | src/nycti/browser/client.py:379-411 | the loops compute the address of the specification |
| `Ipv4Spelling.Assemble` | src/nycti/browser/client.py:405-411 | the sum of the placed parts, and the constructor's refusal of a negative one |
| `Ipv4Spelling.RoundTrip` | src/nycti/browser/client.py:386-411 | any 32-bit address printed in one to four parts, each in any radix, is read back |
| `Ipv4Spelling.SpellingIsRead` | src/nycti/browser/client.py:386-411 | a digit spelling is read as its mixed-radix value in 32 bits when its parts are in range, and rejected otherwise |
| `Ipv4Spelling.DistinctValuesDistinctAddresses` | src/nycti/browser/client.py:403-410 | with the number of parts fixed, different values spell different addresses |
| `Ipv4Spelling.AcceptedIsInRange` | src/nycti/browser/client.py:403-411 | whatever is accepted as IPv4 has 32 bits, signs and underscores included |
| `Ipv4Spelling.StrictAgrees` | src/nycti/browser/client.py:381-384 | where the strict dotted quad applies, the legacy reading agrees with it |
| `Ipv4Spelling.PartIsRead` | src/nycti/browser/client.py:390-400 | a decimal, octal or hexadecimal part is read as the value of its digits |
| `Ipv4Spelling.SignedPartRaises` | src/nycti/browser/client.py:395-396 | an octal part with a minus sign makes the parser raise |
| `Ipv4Spelling.RaisesIff` | src/nycti/browser/client.py:379-411 | the parser raises exactly when no strict reading applies and one to four parts are read, in range, with a sum below zero |
| `Ipv4Spelling.RaisesOnlyWithMinus` | src/nycti/browser/client.py:390-411 | it never raises on a host name none of whose folded parts starts with a zero and holds a minus sign |
| `ScenarioReplay.ValidateScenarioOrder` | src/nycti/live_benchmark_manifest.py:207-226 | accepted exactly: modes right, cases without a scenario carry turn 0, and each scenario carries the turns 1 to n in order |
| `ScenarioReplay.ChosenTurnReplaysScenario` | src/nycti/live_benchmarks.py:691-709 | choosing turn t of a scenario in an accepted manifest runs exactly the turns 1 to t in order |
| `ScenarioReplay.SelectionsAreOrdered` | src/nycti/live_benchmarks.py:691-709 | whatever is selected from an accepted manifest is again in order |
| `ScenarioReplay.RunCase` | src/nycti/live_benchmarks.py:721-780 | one case is run `repeats` times, each on its own repeat's history, which it extends |
| `ScenarioReplay.RunSuite` | src/nycti/live_benchmarks.py:681-780 | case by case and repeat by repeat, each attempt is run with exactly its own repeat's earlier exchanges; a bad repeat count is an error |
| `ScenarioReplay.HistoryIsEarlierTurns` | src/nycti/live_benchmarks.py:718-780 | when turn t of a repeat starts, its history is exactly that repeat's t - 1 earlier prompt and answer pairs, in order |

## Left out

* Discord, HTTP, Playwright, SQLAlchemy, file locking, signals and logging: no visible contract.
* Prompts, the wording of guidance, progress reports, traces, usage records and metrics.
* Regular-expression heuristics: secret redaction, structural completeness of an answer, raw tool output, watchlists.
  They are function parameters or arbitrary choices.
* URL normalisation, evidence excerpts, the primary-source score, case folding of single characters, Unicode categories,
  `json.dumps` lengths and hashes are function parameters; a theorem states what it needs of them.
* Python objects that several containers share are values; a snapshot changed by its holder after it was recorded is not
  modelled.
* A handler of the background worker that swallows its cancellation counts as finished.
* The decayed popularity score of emoji usage, the meaning assessments, the managed pool and the table of observed emoji.
* What `request_answer_repair` requires of a draft: only that it may, or may not, find a defect.
* The matching of tool results to call ids: a batch may yield any results.
* What `prepare_answer_for_delivery` makes of an answer: it normalises the text and adds cards.
* The time that passes between the check of a time budget and the call it lets through, and the fallback text.
* `ArtifactSanitizer.JsonStringsAreClean`: one direction for whole values, since cutting, overwriting or decoding again can
  still hide what redaction exposed; for one string `JsonStringCleanIff` is exact.
* Float rounding of prices: money is counted in units of half a micro-dollar.
* `sort_keys` in rendered JSON: the items of a mapping keep one order. Redaction leaves a text that was cut as it is.
* Digits outside ASCII in host names, and the inside of the IPv6 parser.
* Scores and checks of benchmark cases, and the parsing of a manifest up to the order of its scenarios.
* The fields of a research result that do not reach its evidence: timings, token counts, statuses.
* Configuration parsing, image rendering, tables and Markdown styling.
