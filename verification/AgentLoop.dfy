/**
  The bounded agent loop. Model answers, tool results, the need for a repair and the clock are arbitrary: every
  contract below holds for all of their behaviours.
 */
module AgentLoop {
  import opened Collections
  import opened Wrappers
  import opened AgentTools

  datatype StopReason =
    FinalText | DuplicateToolCall | EmptyTurn | ModelTurnBudget | ToolCallBudget | Deadline | ProviderError

  datatype CorrectionKind = DuplicateTool | EmptyReply | AnswerRepair

  datatype FinalStatus = Running | Success | Unsuccessful | Recovered | Fallback

  datatype Message = Message(role: string, content: string)

  datatype Turn = Turn(text: string, toolCalls: seq<ToolCall>, hasOutputItems: bool)

  /** What awaiting the model can do: a turn, a timeout, any other error, or cancellation of the whole run. */
  datatype CallResult = Answered(turn: Turn) | TimedOut | CallFailed | Cancelled

  datatype Feature = ChatReply | ChatReplyFinal | ChatReplyContinuation

  /** `admittedAt` is the clock reading of the check that let the call through. */
  datatype ModelCall = ModelCall(feature: Feature, messages: seq<Message>, admittedAt: real, result: CallResult)

  /** A granted correction, and where in the conversation its prompt stands. */
  datatype Correction = Correction(kind: CorrectionKind, at: nat)

  datatype ToolResult = ToolResult(failed: bool, directReply: string, terminal: bool)

  datatype BatchResult = BatchDone(outcomes: seq<ToolResult>) | BatchTimedOut | BatchRaised

  datatype AgentBudget = AgentBudget(
    maxModelTurns: int, maxToolCalls: int, maxDeepResearchCalls: int, maxCorrections: int, maxContinuations: int,
    totalTimeoutSeconds: real, finalizationReserveSeconds: real)

  datatype Prompt =
    DuplicatePrompt | CheaperToolPrompt | NativeAnswerPrompt | RepairPrompt | FinalPrompt | ContinuePrompt

  /** The text functions the loop branches on or shows. */
  datatype Texts = Texts(
    isRawDump: string -> bool, isMarkup: string -> bool, shouldContinue: (Turn, int) -> bool,
    joinParts: (string, string) -> string, prompt: Prompt -> string)

  predicate Usable(t: Texts, text: string) {
    text != "" && !t.isRawDump(text) && !t.isMarkup(text)
  }

  datatype Exit = Again | Stop | Deliver(text: string) | Aborted

  // ---------------------------------------------------------------------
  // What is kept over a run
  // ---------------------------------------------------------------------

  function Completed(calls: seq<ModelCall>): nat {
    if calls == [] then 0
    else Completed(calls[..|calls| - 1]) + if calls[|calls| - 1].result.Answered? then 1 else 0
  }

  lemma CompletedAppend(calls: seq<ModelCall>, c: ModelCall)
    ensures Completed(calls + [c]) == Completed(calls) + if c.result.Answered? then 1 else 0
  {
    assert (calls + [c])[..|calls|] == calls;
  }

  lemma {:induction false} CompletedAtMostAll(calls: seq<ModelCall>)
    ensures Completed(calls) <= |calls|
  {
    if calls != [] {
      CompletedAtMostAll(calls[..|calls| - 1]);
    }
  }

  /** Answered replies, each sent with a prefix of what the next one and the run's messages hold. */
  ghost predicate AnsweredReplies(calls: seq<ModelCall>) {
    forall k :: 0 <= k < |calls| ==> calls[k].feature == ChatReply && calls[k].result.Answered?
  }

  /** The conversation only grows: apart from continuations, every call saw a prefix of the later messages. */
  ghost predicate Growing(calls: seq<ModelCall>, messages: seq<Message>) {
    if calls == [] then true
    else
      var front, last := calls[..|calls| - 1], calls[|calls| - 1];
      && (last.feature != ChatReplyContinuation ==> last.messages <= messages)
      && Growing(front, last.messages) && Growing(front, messages)
  }

  lemma PrefixTransitive(a: seq<Message>, b: seq<Message>, c: seq<Message>)
    requires a <= b <= c
    ensures a <= c
  {
  }

  lemma {:induction false} GrowingLater(calls: seq<ModelCall>, messages: seq<Message>, later: seq<Message>)
    requires Growing(calls, messages) && messages <= later
    ensures Growing(calls, later)
  {
    if calls != [] {
      var front, last := calls[..|calls| - 1], calls[|calls| - 1];
      GrowingLater(front, messages, later);
      if last.feature != ChatReplyContinuation {
        PrefixTransitive(last.messages, messages, later);
      }
    }
  }

  lemma GrowingAppend(calls: seq<ModelCall>, messages: seq<Message>, c: ModelCall)
    requires Growing(calls, messages) && messages <= c.messages
    requires c.feature != ChatReplyContinuation ==> c.messages == messages
    ensures Growing(calls + [c], messages)
  {
    GrowingLater(calls, messages, c.messages);
    assert (calls + [c])[..|calls|] == calls;
  }

  lemma {:induction false} GrowsAt(calls: seq<ModelCall>, messages: seq<Message>, k: nat)
    requires Growing(calls, messages) && k < |calls| && calls[k].feature != ChatReplyContinuation
    ensures calls[k].messages <= messages && forall j :: k < j < |calls| ==> calls[k].messages <= calls[j].messages
  {
    var front, last := calls[..|calls| - 1], calls[|calls| - 1];
    if k < |calls| - 1 {
      GrowsAt(front, messages, k);
      GrowsAt(front, last.messages, k);
    }
  }

  // ---------------------------------------------------------------------
  // Corrections
  // ---------------------------------------------------------------------

  function PromptOf(kind: CorrectionKind): Prompt {
    match kind
    case DuplicateTool => DuplicatePrompt
    case EmptyReply => NativeAnswerPrompt
    case AnswerRepair => RepairPrompt
  }

  function KindsOf(corrected: seq<Correction>): seq<CorrectionKind> {
    if corrected == [] then [] else KindsOf(corrected[..|corrected| - 1]) + [corrected[|corrected| - 1].kind]
  }

  /** Each correction took a kind that was unused, while the budget lasted; set and counter say what was taken. */
  ghost predicate CorrectedWithin(corrected: seq<Correction>, kinds: set<CorrectionKind>, count: int, limit: int) {
    if corrected == [] then kinds == {} && count == 0
    else
      var kind := corrected[|corrected| - 1].kind;
      && kind in kinds && count <= limit
      && CorrectedWithin(corrected[..|corrected| - 1], kinds - {kind}, count - 1, limit)
  }

  lemma {:induction false} CorrectedOncePerKind(corrected: seq<Correction>, kinds: set<CorrectionKind>, count: int,
                                                limit: int)
    requires CorrectedWithin(corrected, kinds, count, limit)
    ensures count == |corrected| == |kinds| == |KindsOf(corrected)| <= Max(limit, 0)
    ensures Distinct(KindsOf(corrected))
    ensures forall k :: k in KindsOf(corrected) <==> k in kinds
  {
    if corrected != [] {
      var kind := corrected[|corrected| - 1].kind;
      CorrectedOncePerKind(corrected[..|corrected| - 1], kinds - {kind}, count - 1, limit);
    }
  }

  /** The prompt of every correction stands in the conversation, in the order of the corrections. */
  ghost predicate Prompted(t: Texts, messages: seq<Message>, corrected: seq<Correction>) {
    if corrected == [] then true
    else
      var last := corrected[|corrected| - 1];
      && last.at < |messages| && messages[last.at] == Message("user", t.prompt(PromptOf(last.kind)))
      && Prompted(t, messages[..last.at], corrected[..|corrected| - 1])
  }

  lemma PromptedLater(t: Texts, messages: seq<Message>, later: seq<Message>, corrected: seq<Correction>)
    requires Prompted(t, messages, corrected) && messages <= later
    ensures Prompted(t, later, corrected)
  {
    if corrected != [] {
      var at := corrected[|corrected| - 1].at;
      assert later[..at] == messages[..at];
    }
  }

  lemma PromptedMore(t: Texts, messages: seq<Message>, corrected: seq<Correction>, kind: CorrectionKind)
    requires Prompted(t, messages, corrected)
    ensures Prompted(t, messages + [Message("user", t.prompt(PromptOf(kind)))],
                     corrected + [Correction(kind, |messages|)])
  {
    var m, c := Message("user", t.prompt(PromptOf(kind))), Correction(kind, |messages|);
    assert (messages + [m])[..|messages|] == messages && (corrected + [c])[..|corrected|] == corrected;
  }

  /** The prompts read off position by position. */
  lemma {:induction false} PromptsStand(t: Texts, messages: seq<Message>, corrected: seq<Correction>)
    requires Prompted(t, messages, corrected)
    ensures PromptsAt(t, messages, corrected)
  {
    if corrected != [] {
      var front, last := corrected[..|corrected| - 1], corrected[|corrected| - 1];
      PromptsStand(t, messages[..last.at], front);
      forall i | 0 <= i < |front| ensures corrected[i].at < last.at {
        assert front[i].at < |messages[..last.at]|;
      }
    }
  }

  ghost predicate PromptsAt(t: Texts, messages: seq<Message>, corrected: seq<Correction>) {
    && (forall i :: 0 <= i < |corrected| ==>
          && corrected[i].at < |messages|
          && messages[corrected[i].at] == Message("user", t.prompt(PromptOf(corrected[i].kind))))
    && (forall i, j :: 0 <= i < j < |corrected| ==> corrected[i].at < corrected[j].at)
  }

  /** The correction that a turn needs before the loop goes on, if any; a draft only gets here when it has defects. */
  function CorrectionFor(t: Texts, r: Registry, k: Known, turn: Turn): Option<CorrectionKind> {
    if turn.toolCalls != [] then if Fresh(r, k, turn.toolCalls) == [] then Some(DuplicateTool) else None
    else if Usable(t, turn.text) then Some(AnswerRepair)
    else Some(EmptyReply)
  }

  function AsList<T>(x: Option<T>): seq<T> {
    if x.Some? then [x.value] else []
  }

  /** The corrections among the steps of the loop. */
  function Made(steps: seq<Option<CorrectionKind>>): seq<CorrectionKind> {
    if steps == [] then [] else Made(steps[..|steps| - 1]) + AsList(steps[|steps| - 1])
  }

  lemma MadeAppend(steps: seq<Option<CorrectionKind>>, step: Option<CorrectionKind>)
    ensures Made(steps + [step]) == Made(steps) + AsList(step)
  {
    assert (steps + [step])[..|steps|] == steps;
  }

  lemma {:induction false} MadeMembers(steps: seq<Option<CorrectionKind>>, k: nat)
    requires k < |steps| && steps[k].Some?
    ensures steps[k].value in Made(steps)
  {
    if k < |steps| - 1 {
      MadeMembers(steps[..|steps| - 1], k);
    }
  }

  lemma {:induction false} MadeOnce(steps: seq<Option<CorrectionKind>>, j: nat, k: nat)
    requires Distinct(Made(steps)) && j < k < |steps| && steps[j].Some?
    ensures steps[j] != steps[k]
  {
    var front, last := steps[..|steps| - 1], steps[|steps| - 1];
    var made, earlier := Made(steps), Made(front);
    assert made == earlier + AsList(last);
    assert Distinct(earlier) by {
      assert forall i :: 0 <= i < |earlier| ==> earlier[i] == made[i];
    }
    if k < |steps| - 1 {
      MadeOnce(front, j, k);
    } else if last.Some? {
      MadeMembers(front, j);
      assert made[|earlier|] == last.value;
      assert forall i :: 0 <= i < |earlier| ==> earlier[i] == made[i] != last.value;
    }
  }

  predicate Toolless(c: ModelCall) {
    c.result.Answered? && c.result.turn.toolCalls == []
  }

  /** What the loop did to go on after an answered reply: a correction, or a batch of tools. */
  ghost predicate StepFits(t: Texts, c: ModelCall, step: Option<CorrectionKind>) {
    && (Toolless(c) ==> step == Some(if Usable(t, c.result.turn.text) then AnswerRepair else EmptyReply))
    && (!Toolless(c) ==> step == None || step == Some(DuplicateTool))
  }

  ghost predicate StepsFit(t: Texts, calls: seq<ModelCall>, steps: seq<Option<CorrectionKind>>) {
    if steps == [] then true
    else
      var n := |steps| - 1;
      n < |calls| && StepFits(t, calls[n], steps[n]) && StepsFit(t, calls[..n], steps[..n])
  }

  /** The loop went on after each of the first replies, and the steps say how. */
  ghost predicate StepsOk(t: Texts, calls: seq<ModelCall>, steps: seq<Option<CorrectionKind>>,
                          corrected: seq<Correction>) {
    StepsFit(t, calls, steps) && Made(steps) == KindsOf(corrected)
  }

  /** The corrections after a step. */
  ghost predicate Followed(before: seq<Correction>, step: Option<CorrectionKind>, after: seq<Correction>) {
    if step.None? then after == before
    else |after| > 0 && after == before + [Correction(step.value, after[|after| - 1].at)]
  }

  lemma StepsLater(t: Texts, calls: seq<ModelCall>, later: seq<ModelCall>, steps: seq<Option<CorrectionKind>>)
    requires StepsFit(t, calls, steps) && calls <= later
    ensures StepsFit(t, later, steps)
  {
    if steps != [] {
      var n := |steps| - 1;
      assert later[..n] == calls[..n];
    }
  }

  lemma StepsAppend(t: Texts, calls: seq<ModelCall>, steps: seq<Option<CorrectionKind>>, before: seq<Correction>,
                    c: ModelCall, step: Option<CorrectionKind>, after: seq<Correction>)
    requires StepsOk(t, calls, steps, before) && |steps| == |calls| && StepFits(t, c, step)
    requires Followed(before, step, after)
    ensures StepsOk(t, calls + [c], steps + [step], after)
  {
    MadeAppend(steps, step);
    assert (calls + [c])[..|calls|] == calls && (steps + [step])[..|steps|] == steps;
  }

  lemma {:induction false} StepFitsAt(t: Texts, calls: seq<ModelCall>, steps: seq<Option<CorrectionKind>>, k: nat)
    requires StepsFit(t, calls, steps) && k < |steps|
    ensures k < |calls| && StepFits(t, calls[k], steps[k])
  {
    var n := |steps| - 1;
    if k < n {
      StepFitsAt(t, calls[..n], steps[..n], k);
    }
  }

  function ToollessAmong(calls: seq<ModelCall>): nat {
    if calls == [] then 0
    else ToollessAmong(calls[..|calls| - 1]) + if Toolless(calls[|calls| - 1]) then 1 else 0
  }

  /**
    The loop went on after each of the first `n` replies. Among them at most one was a draft and at most one was an
    unusable text, and there were no more of them than corrections.
   */
  ghost predicate CorrectedOnce(t: Texts, calls: seq<ModelCall>, n: int, corrections: int)
    requires n <= |calls|
  {
    && (forall j, k :: 0 <= j < k < n && Toolless(calls[j]) && Toolless(calls[k]) ==>
          Usable(t, calls[j].result.turn.text) != Usable(t, calls[k].result.turn.text))
    && (n >= 0 ==> ToollessAmong(calls[..n]) <= corrections)
  }

  lemma {:induction false} ToollessBounded(t: Texts, calls: seq<ModelCall>, steps: seq<Option<CorrectionKind>>, n: nat)
    requires n <= |steps| && StepsFit(t, calls, steps)
    ensures n <= |calls| && ToollessAmong(calls[..n]) <= |Made(steps[..n])|
  {
    if n > 0 {
      ToollessBounded(t, calls, steps, n - 1);
      StepFitsAt(t, calls, steps, n - 1);
      assert calls[..n][..n - 1] == calls[..n - 1] && steps[..n][..n - 1] == steps[..n - 1];
    }
  }

  lemma {:induction false} MadeFewer(steps: seq<Option<CorrectionKind>>, n: nat)
    requires n <= |steps|
    ensures |Made(steps[..n])| <= |Made(steps)|
  {
    if n < |steps| {
      MadeFewer(steps[..|steps| - 1], n);
      assert steps[..|steps| - 1][..n] == steps[..n];
    } else {
      assert steps[..n] == steps;
    }
  }

  lemma StepsCorrectOnce(t: Texts, calls: seq<ModelCall>, steps: seq<Option<CorrectionKind>>,
                         corrected: seq<Correction>, n: int)
    requires StepsOk(t, calls, steps, corrected) && Distinct(KindsOf(corrected)) && n <= |steps| && n <= |calls|
    ensures CorrectedOnce(t, calls, n, |KindsOf(corrected)|)
  {
    forall j, k | 0 <= j < k < n && Toolless(calls[j]) && Toolless(calls[k])
      ensures Usable(t, calls[j].result.turn.text) != Usable(t, calls[k].result.turn.text)
    {
      StepFitsAt(t, calls, steps, j);
      StepFitsAt(t, calls, steps, k);
      MadeOnce(steps, j, k);
    }
    if n >= 0 {
      ToollessBounded(t, calls, steps, n);
      MadeFewer(steps, n);
    }
  }

  /** Calls added later do not change what the first replies were. */
  lemma CorrectedOnceLater(t: Texts, calls: seq<ModelCall>, later: seq<ModelCall>, n: int, corrections: int)
    requires n <= |calls| && calls <= later && CorrectedOnce(t, calls, n, corrections)
    ensures CorrectedOnce(t, later, n, corrections)
  {
    if n >= 0 {
      assert later[..n] == calls[..n];
    }
  }

  // ---------------------------------------------------------------------
  // Time
  // ---------------------------------------------------------------------

  /** The same as `AdmittedInTime`, call by call. */
  ghost predicate InTime(b: AgentBudget, startedAt: real, calls: seq<ModelCall>) {
    if calls == [] then true
    else
      var last := calls[|calls| - 1];
      last.admittedAt < DeadlineFor(b, startedAt, last.feature) && InTime(b, startedAt, calls[..|calls| - 1])
  }

  lemma InTimeMore(b: AgentBudget, startedAt: real, calls: seq<ModelCall>, c: ModelCall)
    requires InTime(b, startedAt, calls) && c.admittedAt < DeadlineFor(b, startedAt, c.feature)
    ensures InTime(b, startedAt, calls + [c])
  {
    assert (calls + [c])[..|calls|] == calls;
  }

  /** Replies are let through before the work deadline, final and continuation calls before the total one. */
  ghost predicate AdmittedInTime(b: AgentBudget, startedAt: real, calls: seq<ModelCall>) {
    forall k :: 0 <= k < |calls| ==> calls[k].admittedAt < DeadlineFor(b, startedAt, calls[k].feature)
  }

  lemma {:induction false} AllInTime(b: AgentBudget, startedAt: real, calls: seq<ModelCall>)
    requires InTime(b, startedAt, calls)
    ensures AdmittedInTime(b, startedAt, calls)
  {
    if calls != [] {
      AllInTime(b, startedAt, calls[..|calls| - 1]);
    }
  }

  function DeadlineFor(b: AgentBudget, startedAt: real, feature: Feature): real {
    startedAt + b.totalTimeoutSeconds - if feature == ChatReply then b.finalizationReserveSeconds else 0.0
  }

  // ---------------------------------------------------------------------
  // Tools
  // ---------------------------------------------------------------------

  /** Executed requests are pairwise different, were offered to the model, and fit the weighted budget. */
  ghost predicate ToolsSafe(r: Registry, b: AgentBudget, offered: set<string>, executed: seq<ToolCall>,
                            seen: set<string>) {
    && Unrepeated(r, executed)
    && Names(executed) <= offered
    && seen == Signatures(r, executed)
    && CostOf(r, executed) <= Max(b.maxToolCalls, 0)
  }

  datatype Counters = Counters(toolCalls: int, costUnits: int, deepCalls: int, attempted: set<string>)

  ghost predicate ToolsCounted(r: Registry, b: AgentBudget, executed: seq<ToolCall>, c: Counters) {
    && c.toolCalls == |executed|
    && c.costUnits == CostOf(r, executed)
    && 0 <= c.deepCalls <= Max(b.maxDeepResearchCalls, 0)
    && c.attempted == Names(executed)
  }

  lemma {:induction false} NamesAndSignaturesConcat(r: Registry, a: seq<ToolCall>, b: seq<ToolCall>)
    ensures Names(a + b) == Names(a) + Names(b)
    ensures Signatures(r, a + b) == Signatures(r, a) + Signatures(r, b)
  {
    if b == [] {
      assert a + b == a;
    } else {
      var front, last := b[..|b| - 1], b[|b| - 1];
      NamesAndSignaturesConcat(r, a, front);
      SignaturesAppend(r, a + front, last);
      SignaturesAppend(r, front, last);
      assert (a + front) + [last] == a + b && front + [last] == b;
    }
  }

  lemma UnrepeatedConcat(r: Registry, k: Known, executed: seq<ToolCall>, batch: seq<ToolCall>)
    requires Unrepeated(r, executed) && Unrepeated(r, batch) && NewToRun(r, k, batch)
    requires k.seen == Signatures(r, executed) && k.attempted == Names(executed)
    ensures Unrepeated(r, executed + batch)
  {
    forall i, j | 0 <= i < |executed| && 0 <= j < |batch| ensures Differ(r, executed[i], batch[j]) {
      assert CallIsNew(r, k, batch[j]);
      assert executed[i] in executed;
      assert Signature(r, executed[i]) in Signatures(r, executed) && executed[i].name in Names(executed);
    }
    var all := executed + batch;
    forall i, j | 0 <= i < j < |all| ensures Differ(r, all[i], all[j]) {
      if j < |executed| {
        assert Differ(r, executed[i], executed[j]);
      } else if i >= |executed| {
        assert Differ(r, batch[i - |executed|], batch[j - |executed|]);
      }
    }
  }

  lemma NamesAreAvailable(r: Registry, k: Known, batch: seq<ToolCall>)
    requires NewToRun(r, k, batch)
    ensures Names(batch) <= k.available
  {
    forall x | x in Names(batch) ensures x in k.available {
      var c :| c in batch && c.name == x;
      var i :| 0 <= i < |batch| && batch[i] == c;
      assert CallIsNew(r, k, batch[i]);
    }
  }

  /** The limits a batch is selected under. */
  function LimitsOf(b: AgentBudget, c: Counters, workSeconds: real): Limits {
    Limits(Max(b.maxToolCalls - c.costUnits, 0), Max(b.maxDeepResearchCalls - c.deepCalls, 0), workSeconds)
  }

  /** A batch chosen by the two filters keeps the tool invariant. */
  lemma BatchIsSafe(r: Registry, b: AgentBudget, offered: set<string>, executed: seq<ToolCall>, seen: set<string>,
                    c: Counters, available: set<string>, turnCalls: seq<ToolCall>, workSeconds: real)
    requires ToolsSafe(r, b, offered, executed, seen) && ToolsCounted(r, b, executed, c) && available <= offered
    ensures var batch :=
      Select(r, LimitsOf(b, c, workSeconds), Fresh(r, Known(available, seen, c.attempted), turnCalls)).executable;
            ToolsSafe(r, b, offered, executed + batch, seen + Signatures(r, batch))
  {
    var k, l := Known(available, seen, c.attempted), LimitsOf(b, c, workSeconds);
    var freshCalls := Fresh(r, k, turnCalls);
    var batch := Select(r, l, freshCalls).executable;
    FreshIsUnrepeated(r, k, turnCalls);
    SelectionIsUnrepeated(r, k, l, freshCalls);
    SelectionWithinLimits(r, l, freshCalls);
    UnrepeatedConcat(r, k, executed, batch);
    NamesAreAvailable(r, k, batch);
    NamesAndSignaturesConcat(r, executed, batch);
    CostOfConcat(r, executed, batch);
  }

  /** What `record_execution` and the attempted-tools update make of the counters. */
  function Counted(c: Counters, s: Selection, deep: nat): Counters {
    Counters(c.toolCalls + |s.executable|, c.costUnits + s.costUnits, c.deepCalls + deep,
             c.attempted + Names(s.executable))
  }

  lemma BatchIsCounted(r: Registry, b: AgentBudget, executed: seq<ToolCall>, c: Counters, l: Limits,
                       calls: seq<ToolCall>, deep: nat)
    requires ToolsCounted(r, b, executed, c)
    requires l.deepResearchCalls == Max(b.maxDeepResearchCalls - c.deepCalls, 0)
    requires deep <= DeepCount(r, Select(r, l, calls).executable)
    ensures ToolsCounted(r, b, executed + Select(r, l, calls).executable, Counted(c, Select(r, l, calls), deep))
  {
    SelectionWithinLimits(r, l, calls);
    var s := Select(r, l, calls);
    NamesAndSignaturesConcat(r, executed, s.executable);
    CostOfConcat(r, executed, s.executable);
  }

  /**
    `available_tools_after_budget_skip`: the skipped tools are withdrawn, all of them when nothing is left to spend.
   */
  function ToolsAfterSkip(available: set<string>, s: Selection, remainingCost: int): set<string> {
    if remainingCost <= 0 then {} else available - Names(s.skipped)
  }

  /** Every call of the turn was answered by a server-rendered, terminal reply. */
  predicate AllDirect(turn: Turn, outcomes: seq<ToolResult>) {
    && outcomes != [] && |outcomes| == |turn.toolCalls|
    && forall i :: 0 <= i < |outcomes| ==> outcomes[i].directReply != "" && outcomes[i].terminal
  }

  predicate NoneFailed(outcomes: seq<ToolResult>) {
    forall i :: 0 <= i < |outcomes| ==> !outcomes[i].failed
  }

  /** The executed deep-research calls whose id is not marked invalid. */
  function DeepCharged(r: Registry, calls: seq<ToolCall>, invalid: set<string>): nat {
    if calls == [] then 0
    else
      var c := calls[|calls| - 1];
      DeepCharged(r, calls[..|calls| - 1], invalid) + if IsDeep(r, c) && c.id !in invalid then 1 else 0
  }

  lemma {:induction false} DeepChargedBounded(r: Registry, calls: seq<ToolCall>, invalid: set<string>)
    ensures DeepCharged(r, calls, invalid) <= DeepCount(r, calls)
  {
    if calls != [] {
      DeepChargedBounded(r, calls[..|calls| - 1], invalid);
    }
  }

  /** `after` is `before` with at most one continuation call added. */
  ghost predicate AtMostOneContinuation(before: seq<ModelCall>, after: seq<ModelCall>) {
    || after == before
    || (|after| == |before| + 1 && after[..|before|] == before && after[|before|].feature == ChatReplyContinuation)
  }

  // ---------------------------------------------------------------------
  // Continuation and finalisation, as relations between transcripts
  // ---------------------------------------------------------------------

  /** The messages of a continuation call: the conversation, the unfinished answer, and the request to go on. */
  function ContinuationMessages(t: Texts, messages: seq<Message>, turn: Turn): seq<Message> {
    messages + [Message("assistant", turn.text), Message("user", t.prompt(ContinuePrompt))]
  }

  /** The answer after a continuation call; `None` is cancellation. */
  function Continued(t: Texts, turn: Turn, result: CallResult): Option<string> {
    match result
    case Answered(more) => Some(if Usable(t, more.text) then t.joinParts(turn.text, more.text) else turn.text)
    case TimedOut => Some(turn.text)
    case CallFailed => Some(turn.text)
    case Cancelled => None
  }

  /** Either the answer stands as it is, or one continuation call was made and decided the answer. */
  ghost predicate ContinuedOnce(t: Texts, messages: seq<Message>, turn: Turn, before: seq<ModelCall>,
                                after: seq<ModelCall>, answer: Option<string>)
  {
    if after == before then answer == Some(turn.text)
    else
      && AtMostOneContinuation(before, after)
      && after[|before|].messages == ContinuationMessages(t, messages, turn)
      && answer == Continued(t, turn, after[|before|].result)
  }

  /** The text of a draft, with what a continuation added to it. */
  ghost predicate DraftText(t: Texts, turn: Turn, before: seq<ModelCall>, after: seq<ModelCall>, text: string) {
    if after == before then text == turn.text
    else
      && |after| == |before| + 1 && after[..|before|] == before
      && Continued(t, turn, after[|before|].result) == Some(text)
  }

  /** The text of call `k`, a usable one, with what the call after it added, if there is one. */
  ghost predicate TextOf(t: Texts, calls: seq<ModelCall>, k: nat, text: string) {
    && k < |calls| <= k + 2 && calls[k].result.Answered? && Usable(t, calls[k].result.turn.text)
    && Some(text) == if |calls| == k + 1 then Some(calls[k].result.turn.text)
                     else Continued(t, calls[k].result.turn, calls[k + 1].result)
  }

  /** The direct replies of all tool results, each text once. */
  function DirectText(outcomes: seq<ToolResult>): string {
    Paragraphs(Dedupe(DirectReplies(outcomes)))
  }

  function DirectReplies(outcomes: seq<ToolResult>): seq<string> {
    if outcomes == [] then []
    else
      var front, last := DirectReplies(outcomes[..|outcomes| - 1]), outcomes[|outcomes| - 1];
      if last.directReply != "" then front + [last.directReply] else front
  }

  function Paragraphs(texts: seq<string>): string {
    if texts == [] then []
    else if |texts| == 1 then texts[0]
    else Paragraphs(texts[..|texts| - 1]) + "\n\n" + texts[|texts| - 1]
  }

  /** What the loop delivers after its last reply: the direct replies of a tool turn, or the draft. */
  ghost predicate Told(t: Texts, calls: seq<ModelCall>, replies: nat, outcomes: seq<ToolResult>, text: string) {
    && 1 <= replies <= |calls| && calls[replies - 1].result.Answered?
    && if Toolless(calls[replies - 1]) then TextOf(t, calls, replies - 1, text)
       else |calls| == replies && text == DirectText(outcomes)
  }

  /** What the handler of a turn delivers. */
  ghost predicate TurnText(t: Texts, turn: Turn, before: seq<ModelCall>, after: seq<ModelCall>,
                           outcomes: seq<ToolResult>, text: string) {
    if turn.toolCalls != [] then after == before && text == DirectText(outcomes)
    else Usable(t, turn.text) && DraftText(t, turn, before, after, text)
  }

  lemma TurnIsTold(t: Texts, before: seq<ModelCall>, c: ModelCall, after: seq<ModelCall>, outcomes: seq<ToolResult>,
                   text: string)
    requires c.result.Answered? && TurnText(t, c.result.turn, before + [c], after, outcomes, text)
    ensures Told(t, after, |before| + 1, outcomes, text)
  {
    if after != before + [c] {
      assert after[|before|] == after[..|before| + 1][|before|];
    }
  }

  /** A recovered answer is the text of the final call. */
  lemma RecoveredText(t: Texts, messages: seq<Message>, before: seq<ModelCall>, after: seq<ModelCall>, text: string)
    requires Finalized(t, messages, before, after, Some(text), Recovered)
    ensures TextOf(t, after, |before|, text)
  {
    var asked: Option<ModelCall> :|
      && AskedOnce(messages, before, asked, before + AsList(asked))
      && JudgedFinal(t, messages, before + AsList(asked), after, Some(text), Recovered, asked);
    if after != before + AsList(asked) {
      assert after[|before|] == after[..|before| + 1][|before|];
    }
  }

  lemma ContinuedIsAtMostOne(t: Texts, messages: seq<Message>, turn: Turn, before: seq<ModelCall>,
                             after: seq<ModelCall>, answer: Option<string>)
    requires ContinuedOnce(t, messages, turn, before, after, answer)
    ensures AtMostOneContinuation(before, after)
  {
  }

  /** A final call was made with the conversation, or none. */
  ghost predicate AskedOnce(messages: seq<Message>, before: seq<ModelCall>, asked: Option<ModelCall>,
                            after: seq<ModelCall>) {
    && after == before + AsList(asked)
    && (asked.Some? ==> asked.value.feature == ChatReplyFinal && asked.value.messages == messages)
  }

  /** Finalisation recovers from one usable final turn (perhaps continued), falls back, or is cancelled. */
  ghost predicate Finalized(t: Texts, messages: seq<Message>, before: seq<ModelCall>, after: seq<ModelCall>,
                            answer: Option<string>, status: FinalStatus)
  {
    exists asked: Option<ModelCall> ::
      && AskedOnce(messages, before, asked, before + AsList(asked))
      && JudgedFinal(t, messages, before + AsList(asked), after, answer, status, asked)
  }

  lemma FinalizedIntro(t: Texts, messages: seq<Message>, before: seq<ModelCall>, transcript: seq<ModelCall>,
                       after: seq<ModelCall>, answer: Option<string>, status: FinalStatus, asked: Option<ModelCall>)
    requires AskedOnce(messages, before, asked, transcript)
    requires JudgedFinal(t, messages, transcript, after, answer, status, asked)
    ensures Finalized(t, messages, before, after, answer, status) && before <= after
    ensures answer.Some? ==> status == Recovered || status == Fallback
  {
  }

  /** What a final call leads to; the fallback text is not modelled. */
  ghost predicate JudgedFinal(t: Texts, messages: seq<Message>, asked: seq<ModelCall>, after: seq<ModelCall>,
                              answer: Option<string>, status: FinalStatus, final: Option<ModelCall>)
  {
    if final.Some? && final.value.result.Cancelled? then after == asked && answer == None
    else if final.Some? && final.value.result.Answered? && Usable(t, final.value.result.turn.text) then
      ContinuedOnce(t, messages, final.value.result.turn, asked, after, answer)
        && (answer.Some? ==> status == Recovered)
    else after == asked && status == Fallback && answer.Some?
  }

  // ---------------------------------------------------------------------
  // The shape of a whole transcript
  // ---------------------------------------------------------------------

  /**
    `replies` loop calls, all answered but perhaps the last; then nothing, or one continuation of an answered reply,
    or one final call, or an answered final call and its continuation.
   */
  ghost predicate Shape(calls: seq<ModelCall>, replies: nat) {
    && replies <= |calls|
    && (forall k :: 0 <= k < replies ==> calls[k].feature == ChatReply)
    && (forall k :: 0 <= k < replies - 1 ==> calls[k].result.Answered?)
    && Tail(calls, replies)
  }

  predicate Tail(calls: seq<ModelCall>, replies: nat)
    requires replies <= |calls|
  {
    match |calls| - replies
    case 0 => true
    case 1 => calls[replies].feature == ChatReplyFinal
              || (calls[replies].feature == ChatReplyContinuation && replies >= 1
                  && calls[replies - 1].result.Answered?)
    case 2 => calls[replies].feature == ChatReplyFinal && calls[replies].result.Answered?
              && calls[replies + 1].feature == ChatReplyContinuation
    case _ => false
  }

  lemma {:induction false} AllAnswered(calls: seq<ModelCall>)
    requires AnsweredReplies(calls)
    ensures Completed(calls) == |calls|
  {
    if calls != [] {
      AllAnswered(calls[..|calls| - 1]);
    }
  }

  lemma AnsweredShape(calls: seq<ModelCall>)
    requires AnsweredReplies(calls)
    ensures Shape(calls, |calls|)
  {
  }

  lemma ReplyShape(before: seq<ModelCall>, c: ModelCall)
    requires AnsweredReplies(before) && c.feature == ChatReply
    ensures Shape(before + [c], |before| + 1)
    ensures c.result.Answered? ==> AnsweredReplies(before + [c])
  {
  }

  lemma ContinuationShape(before: seq<ModelCall>, c: ModelCall, after: seq<ModelCall>)
    requires AnsweredReplies(before) && c.feature == ChatReply && c.result.Answered?
    requires AtMostOneContinuation(before + [c], after)
    ensures Shape(after, |before| + 1)
  {
    ReplyShape(before, c);
    if after != before + [c] {
      assert after[..|before| + 1] == before + [c];
      assert forall k :: 0 <= k < |before| + 1 ==> after[k] == (before + [c])[k];
    }
  }

  lemma FinalShape(t: Texts, messages: seq<Message>, before: seq<ModelCall>, after: seq<ModelCall>,
                   answer: Option<string>, status: FinalStatus, replies: nat)
    requires Finalized(t, messages, before, after, answer, status) && Shape(before, replies) && |before| == replies
    ensures Shape(after, replies)
  {
    var asked: Option<ModelCall> :|
      && AskedOnce(messages, before, asked, before + AsList(asked))
      && JudgedFinal(t, messages, before + AsList(asked), after, answer, status, asked);
    if asked.Some? {
      var c := asked.value;
      if c.result.Answered? && Usable(t, c.result.turn.text) {
        ContinuedIsAtMostOne(t, messages, c.result.turn, before + [c], after, answer);
      }
      AskedShape(before, c, after);
    }
  }

  lemma AskedShape(before: seq<ModelCall>, c: ModelCall, after: seq<ModelCall>)
    requires Shape(before, |before|) && c.feature == ChatReplyFinal
    requires AtMostOneContinuation(before + [c], after) && (after != before + [c] ==> c.result.Answered?)
    ensures Shape(after, |before|)
  {
    var asked := before + [c];
    assert Shape(asked, |before|);
    if after != asked {
      assert after[..|before| + 1] == asked;
      assert forall k :: 0 <= k < |before| + 1 ==> after[k] == asked[k];
    }
  }

  class AgentRun {
    const texts: Texts
    const registry: Registry
    const budget: AgentBudget
    const offered: set<string>
    const startedAt: real
    var messages: seq<Message>
    var stopReason: Option<StopReason>
    var finalStatus: FinalStatus
    var modelTurns: int
    var counters: Counters
    var corrections: int
    var correctionKinds: set<CorrectionKind>
    var continuations: int
    var seenSignatures: set<string>
    /** The clock: it never runs backwards. */
    var now: real
    /** The results of the tools so far. */
    var outcomes: seq<ToolResult>
    ghost var calls: seq<ModelCall>
    ghost var corrected: seq<Correction>
    ghost var steps: seq<Option<CorrectionKind>>
    ghost var executed: seq<ToolCall>
    ghost var toolsTimedOut: bool

    constructor (texts: Texts, registry: Registry, budget: AgentBudget, offered: set<string>, startedAt: real,
                 now: real, messages: seq<Message>)
      ensures Valid() && this.budget == budget && this.offered == offered && this.registry == registry
      ensures this.messages == messages && calls == [] && executed == [] && corrected == [] && steps == []
      ensures stopReason == None && finalStatus == Running && continuations == 0
    {
      this.texts, this.registry, this.budget, this.offered, this.startedAt :=
        texts, registry, budget, offered, startedAt;
      this.messages, this.now, stopReason, finalStatus := messages, now, None, Running;
      modelTurns, corrections, correctionKinds, continuations := 0, 0, {}, 0;
      counters, seenSignatures, outcomes := Counters(0, 0, 0, {}), {}, [];
      calls, corrected, steps, executed, toolsTimedOut := [], [], [], [], false;
    }

    ghost predicate CorrectionsOk()
      reads this`corrections, this`correctionKinds, this`corrected
    {
      CorrectedWithin(corrected, correctionKinds, corrections, budget.maxCorrections)
    }

    /** A correction was granted whose prompt has not been said yet. */
    ghost predicate Owed(kind: CorrectionKind)
      reads this`corrections, this`correctionKinds, this`corrected
    {
      && kind in correctionKinds && corrections <= budget.maxCorrections
      && CorrectedWithin(corrected, correctionKinds - {kind}, corrections - 1, budget.maxCorrections)
    }

    ghost predicate ContinuationsOk()
      reads this`continuations
    {
      0 <= continuations <= Max(budget.maxContinuations, 0)
    }

    ghost predicate TranscriptOk()
      reads this`calls, this`messages, this`modelTurns, this`corrected
    {
      && modelTurns == Completed(calls) && Growing(calls, messages)
      && InTime(budget, startedAt, calls) && Prompted(texts, messages, corrected)
    }

    ghost predicate SafeTools()
      reads this`executed, this`seenSignatures
    {
      ToolsSafe(registry, budget, offered, executed, seenSignatures)
    }

    ghost predicate CountedTools()
      reads this`executed, this`counters
    {
      ToolsCounted(registry, budget, executed, counters)
    }

    /** The part of the invariant that even a cancelled run keeps. */
    ghost predicate Safe()
      reads this`corrections, this`correctionKinds, this`corrected, this`continuations, this`calls, this`messages,
            this`modelTurns, this`executed, this`seenSignatures
    {
      CorrectionsOk() && ContinuationsOk() && TranscriptOk() && SafeTools()
    }

    ghost predicate Valid()
      reads this`corrections, this`correctionKinds, this`corrected, this`continuations, this`calls, this`messages,
            this`modelTurns, this`executed, this`seenSignatures, this`counters
    {
      Safe() && CountedTools()
    }

    /** In the loop: only answered replies so far, nothing decided. */
    ghost predicate Looping()
      reads this`corrections, this`correctionKinds, this`corrected, this`continuations, this`calls, this`messages,
            this`modelTurns, this`executed, this`seenSignatures, this`counters, this`steps, this`stopReason,
            this`finalStatus
    {
      && Valid() && AnsweredReplies(calls) && |steps| == |calls| && StepsOk(texts, calls, steps, corrected)
      && stopReason == None && finalStatus == Running && continuations == 0
    }

    predicate WorkLeft()
      reads this`now
    {
      now < DeadlineFor(budget, startedAt, ChatReply)
    }

    predicate FinalTimeLeft()
      reads this`now
    {
      now < DeadlineFor(budget, startedAt, ChatReplyFinal)
    }

    function WorkSecondsRemaining(): real
      reads this`now
    {
      if WorkLeft() then DeadlineFor(budget, startedAt, ChatReply) - now else 0.0
    }

    /** Time passes. */
    method Tick()
      modifies this`now
      ensures now >= old(now)
    {
      var later: real := *;
      if later >= now {
        now := later;
      }
    }

    method CanStartModelTurn() returns (can: bool)
      modifies this`now
      ensures now >= old(now) && can == (modelTurns < budget.maxModelTurns && WorkLeft())
    {
      Tick();
      can := modelTurns < budget.maxModelTurns && WorkLeft();
    }

    /** `use_correction`: a kind is granted once, and only while the budget lasts. */
    method UseCorrection(kind: CorrectionKind) returns (granted: bool)
      requires CorrectionsOk()
      modifies this`corrections, this`correctionKinds
      ensures granted <==> kind !in old(correctionKinds) && old(corrections) < budget.maxCorrections
      ensures granted ==> corrections == old(corrections) + 1 && correctionKinds == old(correctionKinds) + {kind}
      ensures !granted ==> corrections == old(corrections) && correctionKinds == old(correctionKinds)
      ensures if granted then Owed(kind) else CorrectionsOk()
    {
      if kind in correctionKinds || corrections >= budget.maxCorrections {
        return false;
      }
      corrections := corrections + 1;
      correctionKinds := correctionKinds + {kind};
      assert correctionKinds - {kind} == old(correctionKinds);
      granted := true;
    }

    /** The prompt of a granted correction. */
    method Correct(kind: CorrectionKind)
      requires TranscriptOk() && Owed(kind)
      modifies this`messages, this`corrected
      ensures TranscriptOk() && CorrectionsOk()
      ensures messages == old(messages) + [Message("user", texts.prompt(PromptOf(kind)))]
      ensures corrected == old(corrected) + [Correction(kind, |old(messages)|)]
    {
      PromptedMore(texts, messages, corrected, kind);
      ghost var made := corrected + [Correction(kind, |messages|)];
      assert made[..|corrected|] == corrected;
      Say("user", texts.prompt(PromptOf(kind)));
      corrected := made;
    }

    method Say(role: string, content: string)
      requires TranscriptOk()
      modifies this`messages
      ensures TranscriptOk() && messages == old(messages) + [Message(role, content)]
    {
      GrowingLater(calls, messages, messages + [Message(role, content)]);
      PromptedLater(texts, messages, messages + [Message(role, content)], corrected);
      messages := messages + [Message(role, content)];
    }

    /** Tool results and evidence guidance: some messages are appended. */
    method AppendSome()
      requires TranscriptOk()
      modifies this`messages
      ensures TranscriptOk() && old(messages) <= messages
    {
      var more: seq<Message> := *;
      GrowingLater(calls, messages, messages + more);
      PromptedLater(texts, messages, messages + more, corrected);
      messages := messages + more;
    }

    /**
      `call_agent_model`: the attempt is made with the current messages, and counts as a turn only when it answers.
      `base` is what the run's messages are apart from a continuation.
     */
    method CallModel(feature: Feature, ghost base: seq<Message>) returns (result: CallResult)
      requires modelTurns == Completed(calls) && Growing(calls, base) && InTime(budget, startedAt, calls)
      requires now < DeadlineFor(budget, startedAt, feature)
      requires base <= messages && (feature != ChatReplyContinuation ==> messages == base)
      modifies this`modelTurns, this`now, this`calls
      ensures calls == old(calls) + [ModelCall(feature, messages, old(now), result)]
      ensures modelTurns == old(modelTurns) + if result.Answered? then 1 else 0
      ensures now >= old(now)
      ensures modelTurns == Completed(calls) && Growing(calls, base) && InTime(budget, startedAt, calls)
    {
      result := *;
      ghost var c := ModelCall(feature, messages, now, result);
      Tick();
      GrowingAppend(calls, base, c);
      CompletedAppend(calls, c);
      InTimeMore(budget, startedAt, calls, c);
      calls := calls + [c];
      if result.Answered? {
        modelTurns := modelTurns + 1;
      }
    }

    /** `continue_once_if_needed`; `None` is cancellation. The messages are put back on every path. */
    method ContinueOnce(turn: Turn, initialMaxTokens: int) returns (answer: Option<string>)
      requires TranscriptOk() && ContinuationsOk()
      modifies this`messages, this`continuations, this`modelTurns, this`now, this`calls
      ensures TranscriptOk() && ContinuationsOk() && messages == old(messages) && now >= old(now)
      ensures ContinuedOnce(texts, messages, turn, old(calls), calls, answer)
      ensures continuations == old(continuations) + |calls| - |old(calls)|
      ensures old(continuations) <= continuations <= old(continuations) + 1
      ensures calls != old(calls) ==>
        texts.shouldContinue(turn, initialMaxTokens) && old(continuations) < budget.maxContinuations
      ensures calls == old(calls) ==>
        !texts.shouldContinue(turn, initialMaxTokens) || old(continuations) >= budget.maxContinuations
          || !FinalTimeLeft()
    {
      Tick();
      if !texts.shouldContinue(turn, initialMaxTokens) || continuations >= budget.maxContinuations || !FinalTimeLeft() {
        return Some(turn.text);
      }
      continuations := continuations + 1;
      var original := messages;
      messages := ContinuationMessages(texts, messages, turn);
      var result := CallModel(ChatReplyContinuation, original);
      messages := original;
      answer := Continued(texts, turn, result);
    }

    /** `finalize_run` up to its model call, which is made exactly while there is time. */
    method AskForFinal() returns (result: Option<CallResult>, ghost asked: Option<ModelCall>)
      requires TranscriptOk()
      modifies this`messages, this`modelTurns, this`now, this`calls
      ensures TranscriptOk() && messages == old(messages) + [Message("user", texts.prompt(FinalPrompt))]
      ensures AskedOnce(messages, old(calls), asked, calls)
      ensures result == if asked.Some? then Some(asked.value.result) else None
      ensures asked.None? ==> !FinalTimeLeft()
      ensures |calls| <= |old(calls)| + 1
    {
      asked := None;
      Say("user", texts.prompt(FinalPrompt));
      Tick();
      if !FinalTimeLeft() {
        return None, None;
      }
      var reply := CallModel(ChatReplyFinal, messages);
      asked := Some(calls[|calls| - 1]);
      result := Some(reply);
    }

    /** `finalize_run` once its model call was answered. */
    method AcceptFinal(turn: Turn, finalMaxTokens: int, ghost final: ModelCall) returns (answer: Option<string>)
      requires TranscriptOk() && ContinuationsOk() && final.result == Answered(turn)
      modifies this`messages, this`finalStatus, this`continuations, this`modelTurns, this`now, this`calls
      ensures TranscriptOk() && ContinuationsOk() && messages == old(messages)
      ensures JudgedFinal(texts, messages, old(calls), calls, answer, finalStatus, Some(final))
      ensures continuations == old(continuations) + |calls| - |old(calls)|
      ensures old(continuations) <= continuations <= old(continuations) + 1
    {
      if !Usable(texts, turn.text) {
        finalStatus := Fallback;
        var text: string := *;
        return Some(text);
      }
      answer := ContinueOnce(turn, finalMaxTokens);
      if answer.Some? {
        finalStatus := Recovered;
      }
    }

    /** `finalize_run` after the attempt. */
    method JudgeFinal(result: Option<CallResult>, finalMaxTokens: int, ghost asked: Option<ModelCall>)
      returns (answer: Option<string>)
      requires TranscriptOk() && ContinuationsOk()
      requires result == if asked.Some? then Some(asked.value.result) else None
      modifies this`messages, this`finalStatus, this`continuations, this`modelTurns, this`now, this`calls
      ensures TranscriptOk() && ContinuationsOk() && messages == old(messages)
      ensures JudgedFinal(texts, messages, old(calls), calls, answer, finalStatus, asked)
      ensures result.None? ==> now == old(now)
      ensures continuations == old(continuations) + |calls| - |old(calls)|
      ensures old(continuations) <= continuations <= old(continuations) + 1
    {
      if result.None? || result.value.TimedOut? || result.value.CallFailed? {
        finalStatus := Fallback;
        var text: string := *;
        return Some(text);
      }
      if result.value.Cancelled? {
        return None;
      }
      answer := AcceptFinal(result.value.turn, finalMaxTokens, asked.value);
    }

    /** `finalize_run`; `None` is cancellation. */
    method FinalizeRun(finalMaxTokens: int) returns (answer: Option<string>)
      requires TranscriptOk() && ContinuationsOk()
      modifies this`messages, this`finalStatus, this`continuations, this`modelTurns, this`now, this`calls
      ensures TranscriptOk() && ContinuationsOk()
        && messages == old(messages) + [Message("user", texts.prompt(FinalPrompt))]
      ensures Finalized(texts, messages, old(calls), calls, answer, finalStatus)
      ensures answer.Some? ==> finalStatus == Recovered || finalStatus == Fallback
      ensures old(continuations) <= continuations <= old(continuations) + 1
      ensures |calls| <= |old(calls)| + 1 + continuations - old(continuations)
      ensures old(calls) <= calls && (calls == old(calls) ==> !FinalTimeLeft())
    {
      var result;
      ghost var asked;
      result, asked := AskForFinal();
      ghost var transcript := calls;
      answer := JudgeFinal(result, finalMaxTokens, asked);
      FinalizedIntro(texts, messages, old(calls), transcript, calls, answer, finalStatus, asked);
    }

    /** Why the loop stopped, read off the state it stopped in. */
    ghost predicate Explained()
      reads this`stopReason, this`correctionKinds, this`corrections, this`modelTurns, this`counters, this`now,
            this`toolsTimedOut, this`calls
    {
      match stopReason
      case None => false
      case Some(FinalText) => false
      case Some(DuplicateToolCall) => DuplicateTool in correctionKinds || corrections >= budget.maxCorrections
      case Some(EmptyTurn) => EmptyReply in correctionKinds || corrections >= budget.maxCorrections
      case Some(ModelTurnBudget) => modelTurns >= budget.maxModelTurns
      case Some(ToolCallBudget) =>
        counters.costUnits >= budget.maxToolCalls || modelTurns >= budget.maxModelTurns || !WorkLeft()
      case Some(Deadline) => !WorkLeft() || toolsTimedOut || (calls != [] && calls[|calls| - 1].result == TimedOut)
      case Some(ProviderError) => calls != [] && calls[|calls| - 1].result == CallFailed
    }

    /** `record_executable_tool_calls`. */
    method RecordExecutable(batch: seq<ToolCall>)
      requires ToolsSafe(registry, budget, offered, executed + batch, seenSignatures + Signatures(registry, batch))
      modifies this`seenSignatures, this`executed
      ensures SafeTools() && executed == old(executed) + batch
    {
      seenSignatures := seenSignatures + Signatures(registry, batch);
      executed := executed + batch;
    }

    /** `execute_tool_batch`; results of calls with an invalid id are not charged to the deep-research limit. */
    method ExecuteBatch(s: Selection, ghost before: seq<ToolCall>, ghost l: Limits, ghost freshCalls: seq<ToolCall>)
      returns (result: BatchResult)
      requires TranscriptOk() && executed == before + s.executable && s == Select(registry, l, freshCalls)
      requires ToolsCounted(registry, budget, before, counters)
      requires l.deepResearchCalls == Max(budget.maxDeepResearchCalls - counters.deepCalls, 0)
      modifies this`messages, this`stopReason, this`counters, this`now, this`toolsTimedOut, this`outcomes
      ensures TranscriptOk() && (result.BatchRaised? || CountedTools())
      ensures outcomes == old(outcomes) + if result.BatchDone? then result.outcomes else []
      ensures stopReason == if result.BatchTimedOut? then Some(Deadline) else old(stopReason)
      ensures result.BatchTimedOut? ==> toolsTimedOut
    {
      result := *;
      Tick();
      if result.BatchRaised? {
        return;
      }
      var invalid: set<string> := *;
      if result.BatchTimedOut? {
        invalid := {};
        stopReason := Some(Deadline);
        toolsTimedOut := true;
      }
      var deep := DeepCharged(registry, s.executable, invalid);
      DeepChargedBounded(registry, s.executable, invalid);
      BatchIsCounted(registry, budget, before, counters, l, freshCalls, deep);
      counters := Counted(counters, s, deep);
      if result.BatchDone? {
        outcomes := outcomes + result.outcomes;
      }
      AppendSome();
    }

    /** A correction that is made was not made before, is counted and has its prompt; without one nothing is spent. */
    ghost predicate Spent(kind: Option<CorrectionKind>, kindsBefore: set<CorrectionKind>, countBefore: int,
                          before: seq<Correction>)
      reads this`corrections, this`correctionKinds, this`corrected, this`messages
    {
      if kind.None? then correctionKinds == kindsBefore && corrections == countBefore && corrected == before
      else
        && kind.value !in kindsBefore && correctionKinds == kindsBefore + {kind.value}
        && countBefore < budget.maxCorrections && corrections == countBefore + 1
        && |messages| > 0 && corrected == before + [Correction(kind.value, |messages| - 1)]
    }

    /** The duplicate branch: one correction, or the end of the loop. */
    method RejectDuplicates() returns (exit: Exit)
      requires Valid()
      modifies this`messages, this`stopReason, this`corrections, this`correctionKinds, this`corrected
      ensures Valid()
      ensures exit == Again || exit == Stop
      ensures exit == Again ==> stopReason == old(stopReason)
      ensures exit == Stop ==> stopReason == Some(DuplicateToolCall)
      ensures Left(exit, old(stopReason), finalStatus)
      ensures Spent(if exit == Again then Some(DuplicateTool) else None, old(correctionKinds), old(corrections),
                    old(corrected))
      ensures messages == old(messages) + if exit == Again then [Message("user", texts.prompt(DuplicatePrompt))] else []
    {
      var granted := UseCorrection(DuplicateTool);
      if granted {
        Correct(DuplicateTool);
        return Again;
      }
      stopReason := Some(DuplicateToolCall);
      exit := Stop;
    }

    /** Nothing in the batch fits the budget: another turn with cheaper tools, or the end of the loop. */
    method RecoverFromBudget(s: Selection, available: set<string>) returns (exit: Exit, remaining: set<string>)
      requires TranscriptOk()
      modifies this`messages, this`stopReason, this`now
      ensures TranscriptOk() && remaining <= available
      ensures exit == Again || exit == Stop
      ensures exit == Again ==> stopReason == old(stopReason) && modelTurns < budget.maxModelTurns
      ensures exit == Again ==> remaining == ToolsAfterSkip(available, s, budget.maxToolCalls - counters.costUnits)
      ensures exit == Stop ==> stopReason == Some(ToolCallBudget) && Explained()
      ensures messages == old(messages) + if exit == Again then [Message("user", texts.prompt(CheaperToolPrompt))]
        else []
    {
      var can := CanStartModelTurn();
      if can {
        Say("user", texts.prompt(CheaperToolPrompt));
        return Again, ToolsAfterSkip(available, s, budget.maxToolCalls - counters.costUnits);
      }
      stopReason := Some(ToolCallBudget);
      exit, remaining := Stop, available;
    }

    /** After a batch ran: deliver server-rendered replies, stop on an exhausted budget, or go on. */
    method AfterBatch(turn: Turn, batch: seq<ToolResult>) returns (exit: Exit)
      modifies this`stopReason, this`finalStatus
      ensures exit != Aborted && Left(exit, old(stopReason), old(finalStatus))
      ensures exit.Deliver? <==> AllDirect(turn, batch)
      ensures exit.Deliver? ==> (finalStatus == Success <==> NoneFailed(batch)) && exit.text == DirectText(outcomes)
    {
      if AllDirect(turn, batch) {
        stopReason := Some(FinalText);
        finalStatus := if NoneFailed(batch) then Success else Unsuccessful;
        return Deliver(DirectText(outcomes));
      }
      if Max(budget.maxToolCalls - counters.costUnits, 0) == 0 {
        stopReason := Some(ToolCallBudget);
        return Stop;
      }
      exit := Again;
    }

    /** The calls are recorded before the batch runs. */
    method StartBatch(s: Selection, ghost l: Limits, ghost freshCalls: seq<ToolCall>) returns (result: BatchResult)
      requires TranscriptOk() && CountedTools() && s == Select(registry, l, freshCalls)
      requires ToolsSafe(registry, budget, offered, executed + s.executable,
                         seenSignatures + Signatures(registry, s.executable))
      requires l.deepResearchCalls == Max(budget.maxDeepResearchCalls - counters.deepCalls, 0)
      modifies this`messages, this`stopReason, this`counters, this`seenSignatures, this`now, this`executed,
        this`toolsTimedOut, this`outcomes
      ensures TranscriptOk() && SafeTools() && (result.BatchRaised? || CountedTools())
      ensures stopReason == if result.BatchTimedOut? then Some(Deadline) else old(stopReason)
      ensures result.BatchTimedOut? ==> toolsTimedOut
    {
      ghost var before := executed;
      RecordExecutable(s.executable);
      result := ExecuteBatch(s, before, l, freshCalls);
    }

    /** A selected batch is recorded, executed and judged. */
    method RunSelected(turn: Turn, s: Selection, ghost l: Limits, ghost freshCalls: seq<ToolCall>) returns (exit: Exit)
      requires TranscriptOk() && CountedTools() && s == Select(registry, l, freshCalls)
      requires ToolsSafe(registry, budget, offered, executed + s.executable,
                         seenSignatures + Signatures(registry, s.executable))
      requires l.deepResearchCalls == Max(budget.maxDeepResearchCalls - counters.deepCalls, 0)
      modifies this`messages, this`stopReason, this`finalStatus, this`counters, this`seenSignatures, this`now,
               this`executed, this`toolsTimedOut, this`outcomes
      ensures TranscriptOk() && SafeTools() && (exit == Aborted || CountedTools())
      ensures Left(exit, old(stopReason), old(finalStatus))
      ensures exit.Deliver? ==> exit.text == DirectText(outcomes)
    {
      var result := StartBatch(s, l, freshCalls);
      match result {
        case BatchRaised => exit := Aborted;
        case BatchTimedOut => exit := Stop;
        case BatchDone(batch) => exit := AfterBatch(turn, batch);
      }
    }

    /** The batch within the budget as it stands now; calls outside it are answered with skipped results. */
    method SelectBatch(turn: Turn, available: set<string>, freshCalls: seq<ToolCall>)
      returns (s: Selection, ghost l: Limits)
      requires TranscriptOk() && SafeTools() && CountedTools() && available <= offered
      requires freshCalls == Fresh(registry, Known(available, seenSignatures, counters.attempted), turn.toolCalls)
      modifies this`messages, this`now
      ensures TranscriptOk() && old(messages) <= messages
      ensures s == Select(registry, l, freshCalls) && l == LimitsOf(budget, counters, WorkSecondsRemaining())
      ensures ToolsSafe(registry, budget, offered, executed + s.executable,
                        seenSignatures + Signatures(registry, s.executable))
    {
      Tick();
      var limits := LimitsOf(budget, counters, WorkSecondsRemaining());
      BatchIsSafe(registry, budget, offered, executed, seenSignatures, counters, available, turn.toolCalls,
                  limits.workSeconds);
      l := limits;
      s := SelectWithinBudget(registry, limits, freshCalls);
      AppendSome();
    }

    /** The part of a tool turn after the fresh calls are known. */
    method RunFreshCalls(turn: Turn, available: set<string>, freshCalls: seq<ToolCall>)
      returns (exit: Exit, remaining: set<string>)
      requires Valid() && available <= offered
      requires freshCalls == Fresh(registry, Known(available, seenSignatures, counters.attempted), turn.toolCalls)
      modifies this`messages, this`stopReason, this`finalStatus, this`counters, this`seenSignatures, this`now,
               this`executed, this`toolsTimedOut, this`outcomes
      ensures Safe() && (exit == Aborted || CountedTools()) && remaining <= available
      ensures Left(exit, old(stopReason), old(finalStatus))
      ensures exit.Deliver? ==> exit.text == DirectText(outcomes)
    {
      var s;
      ghost var l;
      s, l := SelectBatch(turn, available, freshCalls);
      if s.executable == [] {
        exit, remaining := RecoverFromBudget(s, available);
      } else {
        remaining := available;
        exit := RunSelected(turn, s, l, freshCalls);
      }
    }

    /** How a turn leaves the two verdict fields. */
    ghost predicate Left(exit: Exit, stopBefore: Option<StopReason>, statusBefore: FinalStatus)
      reads this`stopReason, this`finalStatus, this`correctionKinds, this`corrections, this`modelTurns, this`counters,
            this`now, this`toolsTimedOut, this`calls
    {
      match exit
      case Again => stopReason == stopBefore && finalStatus == statusBefore
      case Stop => Explained() && finalStatus == statusBefore
      case Deliver(_) => stopReason == Some(FinalText) && (finalStatus == Success || finalStatus == Unsuccessful)
      case Aborted => true
    }

    /** The assistant message of the turn, and its fresh calls; the others are answered with skipped results. */
    method ChooseFresh(turn: Turn, available: set<string>) returns (freshCalls: seq<ToolCall>)
      requires Valid() && turn.toolCalls != []
      modifies this`messages
      ensures Valid() && old(messages) + [Message("assistant", turn.text)] <= messages
      ensures freshCalls == Fresh(registry, Known(available, seenSignatures, counters.attempted), turn.toolCalls)
      ensures Needed(turn, available) == if freshCalls == [] then Some(DuplicateTool) else None
    {
      Say("assistant", turn.text);
      var skipped;
      freshCalls, skipped :=
        SelectFresh(registry, Known(available, seenSignatures, counters.attempted), turn.toolCalls);
      AppendSome();
    }

    /** The correction that the turn needs as the run stands. */
    function Needed(turn: Turn, available: set<string>): Option<CorrectionKind>
      reads this`seenSignatures, this`counters
    {
      CorrectionFor(texts, registry, Known(available, seenSignatures, counters.attempted), turn)
    }

    /** A turn with tool calls. */
    method HandleToolTurn(turn: Turn, available: set<string>) returns (exit: Exit, remaining: set<string>)
      requires Valid() && available <= offered && turn.toolCalls != []
      modifies this`messages, this`stopReason, this`finalStatus, this`counters, this`seenSignatures, this`now,
               this`executed, this`toolsTimedOut, this`outcomes, this`corrections, this`correctionKinds, this`corrected
      ensures Safe() && (exit == Aborted || CountedTools()) && remaining <= available
      ensures Left(exit, old(stopReason), old(finalStatus))
      ensures exit.Deliver? ==> exit.text == DirectText(outcomes)
      ensures Spent(if exit == Again then old(Needed(turn, available)) else None,
                    old(correctionKinds), old(corrections), old(corrected))
    {
      var freshCalls := ChooseFresh(turn, available);
      if freshCalls == [] {
        remaining := available;
        exit := RejectDuplicates();
        return;
      }
      exit, remaining := RunFreshCalls(turn, available, freshCalls);
    }

    /** A draft without defects is the answer, perhaps after a continuation. */
    method DeliverDraft(turn: Turn, maxTokens: int) returns (exit: Exit)
      requires TranscriptOk() && ContinuationsOk()
      modifies this`messages, this`stopReason, this`finalStatus, this`now, this`continuations, this`modelTurns,
        this`calls
      ensures TranscriptOk() && ContinuationsOk() && messages == old(messages)
      ensures exit.Deliver? || exit == Aborted
      ensures stopReason == Some(FinalText) && finalStatus == Success
      ensures continuations == old(continuations) + |calls| - |old(calls)|
      ensures AtMostOneContinuation(old(calls), calls)
      ensures ContinuedOnce(texts, messages, turn, old(calls), calls, if exit.Deliver? then Some(exit.text) else None)
    {
      stopReason, finalStatus := Some(FinalText), Success;
      ghost var before := calls;
      var answer := ContinueOnce(turn, maxTokens);
      ContinuedIsAtMostOne(texts, messages, turn, before, calls, answer);
      exit := if answer.Some? then Deliver(answer.value) else Aborted;
    }

    /** `request_answer_repair`: one correction for a draft with defects. */
    method RequestRepair(turn: Turn) returns (repair: bool)
      requires CorrectionsOk() && TranscriptOk()
      modifies this`messages, this`corrections, this`correctionKinds, this`corrected
      ensures CorrectionsOk() && TranscriptOk()
      ensures Spent(if repair then Some(AnswerRepair) else None, old(correctionKinds), old(corrections), old(corrected))
      ensures messages == old(messages) + if !repair then []
                                          else [Message("assistant", turn.text),
                                                Message("user", texts.prompt(RepairPrompt))]
    {
      var defects: bool := *;
      if !defects {
        return false;
      }
      repair := UseCorrection(AnswerRepair);
      if repair {
        Say("assistant", turn.text);
        Correct(AnswerRepair);
      }
    }

    /** A usable draft: repaired once if it has defects, otherwise delivered, perhaps after a continuation. */
    method HandleDraft(turn: Turn, maxTokens: int) returns (exit: Exit)
      requires CorrectionsOk() && TranscriptOk() && ContinuationsOk() && Usable(texts, turn.text)
      modifies this`messages, this`stopReason, this`finalStatus, this`now, this`corrections, this`correctionKinds,
               this`corrected, this`continuations, this`modelTurns, this`calls
      ensures CorrectionsOk() && TranscriptOk() && ContinuationsOk()
      ensures Spent(if exit == Again then Some(AnswerRepair) else None, old(correctionKinds), old(corrections),
                    old(corrected))
      ensures Left(exit, old(stopReason), old(finalStatus)) && exit != Stop
      ensures exit == Again ==>
        calls == old(calls) && continuations == old(continuations) && modelTurns == old(modelTurns)
      ensures messages == old(messages) + if exit != Again then []
                                          else [Message("assistant", turn.text),
                                                Message("user", texts.prompt(RepairPrompt))]
      ensures continuations == old(continuations) + |calls| - |old(calls)|
      ensures AtMostOneContinuation(old(calls), calls)
      ensures exit != Again ==>
        ContinuedOnce(texts, messages, turn, old(calls), calls, if exit.Deliver? then Some(exit.text) else None)
    {
      var repair := RequestRepair(turn);
      if repair {
        return Again;
      }
      exit := DeliverDraft(turn, maxTokens);
    }

    /** An unusable reply without tool calls: one correction, or the end of the loop. */
    method HandleEmptyTurn(turn: Turn) returns (exit: Exit)
      requires CorrectionsOk() && TranscriptOk()
      modifies this`messages, this`stopReason, this`corrections, this`correctionKinds, this`corrected
      ensures CorrectionsOk() && TranscriptOk()
      ensures Spent(if exit == Again then Some(EmptyReply) else None, old(correctionKinds), old(corrections),
                    old(corrected))
      ensures exit == Again || exit == Stop
      ensures exit == Again ==> stopReason == old(stopReason)
      ensures exit == Stop ==> stopReason == Some(EmptyTurn) && Explained()
      ensures exit == Stop ==> messages == old(messages)
      ensures exit == Again ==>
        messages == old(messages)
          + (if turn.text != "" || turn.hasOutputItems then [Message("assistant", turn.text)] else [])
                    + [Message("user", texts.prompt(NativeAnswerPrompt))]
    {
      var granted := UseCorrection(EmptyReply);
      if granted {
        if turn.text != "" || turn.hasOutputItems {
          Say("assistant", turn.text);
        }
        Correct(EmptyReply);
        return Again;
      }
      stopReason := Some(EmptyTurn);
      exit := Stop;
    }

    /** One answered turn. */
    method HandleTurn(turn: Turn, available: set<string>, maxTokens: int) returns (exit: Exit, remaining: set<string>)
      requires Valid() && available <= offered
      modifies this`messages, this`stopReason, this`finalStatus, this`counters, this`seenSignatures, this`now,
               this`executed, this`toolsTimedOut, this`outcomes, this`corrections, this`correctionKinds, this`corrected,
               this`continuations, this`modelTurns, this`calls
      ensures Safe() && (exit == Aborted || CountedTools()) && remaining <= available
      ensures Left(exit, old(stopReason), old(finalStatus))
      ensures exit.Deliver? ==> TurnText(texts, turn, old(calls), calls, outcomes, exit.text)
      ensures Spent(if exit == Again then old(Needed(turn, available)) else None,
                    old(correctionKinds), old(corrections), old(corrected))
      ensures exit == Again || exit == Stop ==> calls == old(calls) && modelTurns == old(modelTurns)
      ensures continuations == old(continuations) + |calls| - |old(calls)|
      ensures AtMostOneContinuation(old(calls), calls)
    {
      remaining := available;
      if turn.toolCalls != [] {
        exit, remaining := HandleToolTurn(turn, available);
      } else if Usable(texts, turn.text) {
        exit := HandleDraft(turn, maxTokens);
      } else {
        exit := HandleEmptyTurn(turn);
      }
    }

    /** What the turn of the loop's model call `c` leads to; `before` are the calls before it. */
    method JudgeTurn(turn: Turn, available: set<string>, maxTokens: int, ghost before: seq<ModelCall>,
                     ghost c: ModelCall)
      returns (exit: Exit, remaining: set<string>)
      requires Valid() && available <= offered
      requires calls == before + [c] && c.feature == ChatReply && c.result == Answered(turn) && AnsweredReplies(before)
      requires StepsOk(texts, before, steps, corrected) && |steps| == |before|
      modifies this
      ensures Safe() && (exit == Aborted || CountedTools()) && remaining <= available
      ensures exit == Again || exit == Stop ==> calls == old(calls) && modelTurns == old(modelTurns)
      ensures Left(exit, old(stopReason), old(finalStatus))
      ensures exit.Deliver? ==> TurnText(texts, turn, old(calls), calls, outcomes, exit.text)
      ensures StepsOk(texts, calls, steps, corrected)
      ensures steps == old(steps) + if exit == Again then [old(Needed(turn, available))] else []
      ensures Spent(if exit == Again then old(Needed(turn, available)) else None,
                    old(correctionKinds), old(corrections), old(corrected))
      ensures AtMostOneContinuation(old(calls), calls)
      ensures continuations == old(continuations) + |calls| - |old(calls)|
    {
      ghost var needed := Needed(turn, available);
      exit, remaining := HandleTurn(turn, available, maxTokens);
      NoteStep(exit, needed, before, c, old(corrected));
    }

    /** What the result of the loop's model call leads to; `before` are the calls before it. */
    method JudgeReply(result: CallResult, available: set<string>, maxTokens: int, ghost before: seq<ModelCall>,
                      ghost c: ModelCall)
      returns (exit: Exit, remaining: set<string>)
      requires Valid() && available <= offered
      requires calls == before + [c] && c.feature == ChatReply && c.result == result && AnsweredReplies(before)
      requires StepsOk(texts, before, steps, corrected) && |steps| == |before|
      modifies this
      ensures Safe() && (exit == Aborted || CountedTools()) && remaining <= available
      ensures exit == Again ==> result.Answered? && AnsweredReplies(calls)
      ensures exit == Again || exit == Stop ==> calls == old(calls) && modelTurns == old(modelTurns)
      ensures Left(exit, old(stopReason), old(finalStatus))
      ensures exit.Deliver? ==> Told(texts, calls, |before| + 1, outcomes, exit.text)
      ensures StepsOk(texts, calls, steps, corrected)
      ensures steps == old(steps) + if exit == Again then [old(Needed(result.turn, available))] else []
      ensures Spent(if exit == Again then old(Needed(result.turn, available)) else None,
                    old(correctionKinds), old(corrections), old(corrected))
      ensures Shape(calls, |before| + 1)
      ensures continuations == old(continuations) + |calls| - |before| - 1 && |calls| <= |before| + 2
    {
      ReplyShape(before, c);
      if result.Answered? {
        exit, remaining := JudgeTurn(result.turn, available, maxTokens, before, c);
        ContinuationShape(before, c, calls);
        if exit.Deliver? {
          TurnIsTold(texts, before, c, calls, outcomes, exit.text);
        }
      } else {
        remaining := available;
        exit := LoseReply(result);
        StepsLater(texts, before, calls, steps);
      }
    }

    /** The attempt was cancelled, timed out or failed. */
    method LoseReply(result: CallResult) returns (exit: Exit)
      requires !result.Answered? && calls != [] && calls[|calls| - 1].result == result
      modifies this`stopReason
      ensures exit == Stop || exit == Aborted
      ensures Left(exit, old(stopReason), finalStatus)
    {
      if result.Cancelled? {
        return Aborted;
      }
      stopReason := Some(if result.TimedOut? then Deadline else ProviderError);
      exit := Stop;
    }

    /** Notes how the loop went on, if it did. */
    ghost method NoteStep(exit: Exit, needed: Option<CorrectionKind>, before: seq<ModelCall>, c: ModelCall,
                          correctedBefore: seq<Correction>)
      requires StepsOk(texts, before, steps, correctedBefore) && |steps| == |before| && before <= calls
      requires exit == Again ==>
        calls == before + [c] && StepFits(texts, c, needed) && Followed(correctedBefore, needed, corrected)
      requires exit != Again ==> corrected == correctedBefore
      modifies this`steps
      ensures StepsOk(texts, calls, steps, corrected)
      ensures steps == old(steps) + if exit == Again then [needed] else []
    {
      if exit == Again {
        StepsAppend(texts, before, steps, correctedBefore, c, needed, corrected);
        steps := steps + [needed];
      } else {
        StepsLater(texts, before, calls, steps);
      }
    }

    /** The state in which the loop is left after `replies` attempts. */
    ghost predicate LoopLeft(exit: Exit, replies: nat)
      reads this
    {
      && exit != Again && Safe() && (exit == Aborted || CountedTools()) && Left(exit, None, Running)
      && Shape(calls, replies) && (exit == Stop ==> |calls| == replies) && 0 <= continuations == |calls| - replies <= 1
      && StepsOk(texts, calls, steps, corrected) && replies - 1 <= |steps| <= replies
      && (exit.Deliver? ==> Told(texts, calls, replies, outcomes, exit.text))
    }

    /** One iteration of the loop: the attempt, and what its result leads to. */
    method ModelStep(available: set<string>, maxTokens: int) returns (exit: Exit, remaining: set<string>)
      requires Looping() && available <= offered && modelTurns < budget.maxModelTurns && WorkLeft()
      modifies this
      ensures |old(calls)| + 1 <= budget.maxModelTurns && remaining <= available
      ensures exit != Again ==> LoopLeft(exit, |old(calls)| + 1) && steps == old(steps)
      ensures exit == Again ==> Looping() && |calls| == |old(calls)| + 1 && modelTurns == old(modelTurns) + 1
      ensures exit == Again ==>
        var k := Known(available, old(seenSignatures), old(counters).attempted);
        var needed := CorrectionFor(texts, registry, k, calls[|old(calls)|].result.turn);
        steps == old(steps) + [needed] && Spent(needed, old(correctionKinds), old(corrections), old(corrected))
    {
      ghost var before := calls;
      AllAnswered(before);
      var result := CallModel(ChatReply, messages);
      exit, remaining := JudgeReply(result, available, maxTokens, before, calls[|before|]);
    }

    /** The default stop reason, when the loop condition failed. */
    method StopAtBudget()
      requires Looping() && (modelTurns >= budget.maxModelTurns || !WorkLeft())
      modifies this`stopReason, this`now
      ensures LoopLeft(Stop, |calls|)
    {
      AnsweredShape(calls);
      Tick();
      stopReason := Some(if WorkLeft() then ModelTurnBudget else Deadline);
    }

    /** One iteration, and the loop condition after it. */
    method StepAndTest(available: set<string>, maxTokens: int) returns (exit: Exit, remaining: set<string>, can: bool)
      requires Looping() && available <= offered && modelTurns < budget.maxModelTurns && WorkLeft()
      modifies this
      ensures |old(calls)| + 1 <= budget.maxModelTurns && remaining <= available
      ensures exit != Again ==> LoopLeft(exit, |old(calls)| + 1)
      ensures exit == Again ==> Looping() && |calls| == |old(calls)| + 1 && modelTurns == old(modelTurns) + 1
      ensures exit == Again ==> can == (modelTurns < budget.maxModelTurns && WorkLeft())
    {
      exit, remaining := ModelStep(available, maxTokens);
      can := false;
      if exit == Again {
        can := CanStartModelTurn();
      }
    }

    /** The `while` loop and the default stop reason. `maxTokens` is the output budget of a turn. */
    method RunLoop(maxTokens: int) returns (exit: Exit, ghost replies: nat)
      requires Looping() && calls == []
      modifies this
      ensures LoopLeft(exit, replies) && replies <= Max(budget.maxModelTurns, 0)
    {
      replies := 0;
      var available := offered;
      var can := CanStartModelTurn();
      while can
        invariant Looping() && available <= offered
        invariant can ==> modelTurns < budget.maxModelTurns && WorkLeft()
        invariant !can ==> modelTurns >= budget.maxModelTurns || !WorkLeft()
        invariant |calls| == replies <= Max(budget.maxModelTurns, 0)
        decreases budget.maxModelTurns - modelTurns, can
      {
        exit, available, can := StepAndTest(available, maxTokens);
        replies := replies + 1;
        if exit != Again {
          return;
        }
      }
      StopAtBudget();
      exit := Stop;
    }

    /** Finalisation after the loop stopped without an answer. */
    method FinishStopped(finalMaxTokens: int, ghost replies: nat) returns (answer: Option<string>)
      requires TranscriptOk() && ContinuationsOk() && Shape(calls, replies) && |calls| == replies
      modifies this`messages, this`finalStatus, this`continuations, this`modelTurns, this`now, this`calls
      ensures TranscriptOk() && ContinuationsOk() && Shape(calls, replies) && old(calls) <= calls
      ensures answer.Some? ==> finalStatus == Recovered || finalStatus == Fallback
      ensures answer.Some? && finalStatus == Recovered ==> TextOf(texts, calls, replies, answer.value)
      ensures old(continuations) <= continuations <= old(continuations) + 1
      ensures |calls| <= replies + 1 + continuations - old(continuations)
    {
      ghost var before := calls;
      answer := FinalizeRun(finalMaxTokens);
      FinalShape(texts, messages, before, calls, answer, finalStatus, replies);
      if answer.Some? && finalStatus == Recovered {
        RecoveredText(texts, messages, before, calls, answer.value);
      }
    }

    lemma LoopCorrections(replies: nat)
      requires CorrectionsOk() && StepsOk(texts, calls, steps, corrected) && replies - 1 <= |steps|
        && replies <= |calls|
      ensures |corrected| == |correctionKinds| == corrections <= Max(budget.maxCorrections, 0)
      ensures Distinct(KindsOf(corrected)) && CorrectedOnce(texts, calls, replies - 1, corrections)
    {
      CorrectedOncePerKind(corrected, correctionKinds, corrections, budget.maxCorrections);
      StepsCorrectOnce(texts, calls, steps, corrected, replies - 1);
    }

    /** What the transcript of a run shows at its end. */
    lemma TranscriptReadsOff()
      requires TranscriptOk()
      ensures modelTurns <= |calls| && PromptsAt(texts, messages, corrected)
      ensures AdmittedInTime(budget, startedAt, calls)
    {
      CompletedAtMostAll(calls);
      PromptsStand(texts, messages, corrected);
      AllInTime(budget, startedAt, calls);
    }

    /** Whether the answer came from the loop or from finalisation. */
    ghost predicate Verdict()
      reads this`stopReason, this`finalStatus
    {
      && stopReason.Some?
      && (stopReason == Some(FinalText) <==> finalStatus == Success || finalStatus == Unsuccessful)
      && (stopReason != Some(FinalText) <==> finalStatus == Recovered || finalStatus == Fallback)
    }

    /** The text of the answer: what the loop delivered, or what the final call recovered. */
    ghost predicate AnswerTold(replies: nat, text: string)
      reads this`stopReason, this`finalStatus, this`calls, this`outcomes
    {
      && (stopReason == Some(FinalText) ==> Told(texts, calls, replies, outcomes, text))
      && (finalStatus == Recovered ==> TextOf(texts, calls, replies, text))
    }

    /** What follows the loop: its answer, or finalisation. */
    method Conclude(exit: Exit, finalMaxTokens: int, ghost replies: nat) returns (answer: Option<string>)
      requires TranscriptOk() && ContinuationsOk() && Shape(calls, replies)
        && CorrectedOnce(texts, calls, replies - 1, corrections)
      requires exit != Again && Left(exit, None, Running)
      requires exit.Deliver? ==> Told(texts, calls, replies, outcomes, exit.text)
      requires (exit == Stop ==> |calls| == replies) && 0 <= continuations == |calls| - replies <= 1
      modifies this`messages, this`finalStatus, this`continuations, this`modelTurns, this`now, this`calls
      ensures TranscriptOk() && ContinuationsOk() && Shape(calls, replies)
      ensures CorrectedOnce(texts, calls, replies - 1, corrections)
      ensures continuations <= 1 && |calls| <= replies + 1 + continuations
      ensures answer.Some? ==> exit != Aborted && Verdict() && AnswerTold(replies, answer.value)
    {
      if exit.Deliver? {
        return Some(exit.text);
      }
      if exit == Aborted {
        return None;
      }
      ghost var before := calls;
      answer := FinishStopped(finalMaxTokens, replies);
      CorrectedOnceLater(texts, before, calls, replies - 1, corrections);
    }

    /** `run_chat_with_tools` after its setup; `None` is a cancelled run or a tool runner that raised. */
    method RunChat(maxTokens: int, finalMaxTokens: int) returns (answer: Option<string>, ghost replies: nat)
      requires Looping() && calls == []
      modifies this
      ensures Safe() && Shape(calls, replies) && replies <= Max(budget.maxModelTurns, 0)
      ensures modelTurns <= |calls| <= Max(budget.maxModelTurns, 0) + 1
        + (if budget.maxContinuations >= 1 then 1 else 0)
      ensures continuations <= 1
      ensures |corrected| == |correctionKinds| == corrections <= Max(budget.maxCorrections, 0)
        && Distinct(KindsOf(corrected))
      ensures PromptsAt(texts, messages, corrected) && CorrectedOnce(texts, calls, replies - 1, corrections)
      ensures AdmittedInTime(budget, startedAt, calls)
      ensures answer.Some? ==> CountedTools() && Verdict() && AnswerTold(replies, answer.value)
    {
      var exit: Exit;
      exit, replies := RunLoop(maxTokens);
      LoopCorrections(replies);
      answer := Conclude(exit, finalMaxTokens, replies);
      TranscriptReadsOff();
    }
  }
}
