/**
  Multi-turn benchmark scenarios: the order a manifest must have, which turns a selection replays, and their history.
 */
module ScenarioReplay {
  import opened Collections
  import opened Wrappers
  import opened PyText

  const MAX_DISCORD_MESSAGES: nat := 20
  const MAX_MESSAGE_CHARS: nat := 4000
  const MAX_REPEATS: nat := 3

  datatype Mode = Fixtures | Canaries

  datatype Message = Message(author: string, content: string, receipts: string)

  /** A message of the effective case, with its age. */
  datatype Aged = Aged(message: Message, minutesAgo: nat)

  datatype Case = Case(
    caseId: string, mode: Mode, prompt: string, hasToolFixtures: bool, scenarioId: string, scenarioTurn: nat,
    recentMessages: seq<Aged>)

  // ---------------------------------------------------------------------
  // The order of a manifest
  // ---------------------------------------------------------------------

  predicate ModeOk(c: Case) {
    c.scenarioId != "" || c.hasToolFixtures ==> c.mode == Fixtures
  }

  /** The turns of a scenario in the order the cases stand. */
  function TurnsOf(cases: seq<Case>, scenario: string): seq<nat> {
    if cases == [] then []
    else
      var front, last := TurnsOf(cases[..|cases| - 1], scenario), cases[|cases| - 1];
      if last.scenarioId == scenario then front + [last.scenarioTurn] else front
  }

  function OneTo(n: nat): (turns: seq<nat>)
    ensures |turns| == n && forall i :: 0 <= i < n ==> turns[i] == i + 1
  {
    seq(n, i requires 0 <= i < n => i + 1)
  }

  /** What an accepted manifest is, besides the check of modes: every scenario carries the turns 1 to n in order. */
  ghost predicate Ordered(cases: seq<Case>) {
    && (forall c :: c in cases && c.scenarioId == "" ==> c.scenarioTurn == 0)
    && (forall s :: s != "" ==> TurnsOf(cases, s) == OneTo(|TurnsOf(cases, s)|))
  }

  /** The turn the next case of a scenario must carry; cases without a scenario carry 0. */
  predicate NextTurn(cases: seq<Case>, c: Case) {
    c.scenarioTurn == if c.scenarioId == "" then 0 else |TurnsOf(cases, c.scenarioId)| + 1
  }

  lemma OrderedAppend(cases: seq<Case>, c: Case)
    requires Ordered(cases)
    ensures Ordered(cases + [c]) <==> NextTurn(cases, c)
  {
    var all := cases + [c];
    assert all[|cases|] == c;
    if NextTurn(cases, c) {
      forall s | s != "" ensures TurnsOf(all, s) == OneTo(|TurnsOf(all, s)|) {
      }
    } else if c.scenarioId != "" {
      var turns := TurnsOf(all, c.scenarioId);
      assert turns[|turns| - 1] == c.scenarioTurn;
    }
  }

  lemma OrderedFront(cases: seq<Case>)
    requires Ordered(cases) && cases != []
    ensures Ordered(cases[..|cases| - 1])
  {
    var front, last := cases[..|cases| - 1], cases[|cases| - 1];
    assert cases == front + [last];
    forall s | s != "" ensures TurnsOf(front, s) == OneTo(|TurnsOf(front, s)|) {
      var turns := TurnsOf(front, s);
      assert forall i :: 0 <= i < |turns| ==> turns[i] == TurnsOf(cases, s)[i];
    }
  }

  lemma {:induction false} OrderedPrefix(cases: seq<Case>, n: nat)
    requires Ordered(cases) && n <= |cases|
    ensures Ordered(cases[..n])
  {
    if n < |cases| {
      OrderedFront(cases);
      OrderedPrefix(cases[..|cases| - 1], n);
      assert cases[..|cases| - 1][..n] == cases[..n];
    } else {
      assert cases[..n] == cases;
    }
  }

  /** `_validate_scenario_order`: one pass with the next expected turn of each scenario. */
  method ValidateScenarioOrder(cases: seq<Case>) returns (ok: bool)
    ensures ok <==> Ordered(cases) && forall c :: c in cases ==> ModeOk(c)
  {
    var expected: map<string, nat> := map[];
    var k := 0;
    while k < |cases|
      invariant 0 <= k <= |cases|
      invariant Ordered(cases[..k]) && forall i :: 0 <= i < k ==> ModeOk(cases[i])
      invariant ExpectedOk(cases[..k], expected)
    {
      var c := cases[k];
      assert cases[..k + 1] == cases[..k] + [c];
      OrderedAppend(cases[..k], c);
      if (c.scenarioId != "" || c.hasToolFixtures) && c.mode != Fixtures {
        assert c in cases && !ModeOk(c);
        return false;
      }
      if !NextTurn(cases[..k], c) {
        NotOrderedLater(cases, k + 1);
      }
      if c.scenarioId == "" {
        if c.scenarioTurn != 0 {
          return false;
        }
        k := k + 1;
        continue;
      }
      var turn := Expected(expected, c.scenarioId);
      if c.scenarioTurn != turn {
        return false;
      }
      ExpectedNext(cases[..k], expected, c);
      expected := expected[c.scenarioId := turn + 1];
      k := k + 1;
    }
    assert cases[..k] == cases;
    ok := true;
  }

  function Expected(expected: map<string, nat>, scenario: string): nat {
    if scenario in expected then expected[scenario] else 1
  }

  /** The dictionary holds, for every scenario, the turn its next case must carry. */
  ghost predicate ExpectedOk(cases: seq<Case>, expected: map<string, nat>) {
    forall s: string :: s != "" ==> Expected(expected, s) == |TurnsOf(cases, s)| + 1
  }

  lemma ExpectedNext(cases: seq<Case>, expected: map<string, nat>, c: Case)
    requires ExpectedOk(cases, expected) && c.scenarioId != ""
    ensures ExpectedOk(cases + [c], expected[c.scenarioId := Expected(expected, c.scenarioId) + 1])
  {
    var next := expected[c.scenarioId := Expected(expected, c.scenarioId) + 1];
    forall s: string | s != "" ensures Expected(next, s) == |TurnsOf(cases + [c], s)| + 1 {
    }
  }

  lemma NotOrderedLater(cases: seq<Case>, n: nat)
    requires n <= |cases| && !Ordered(cases[..n])
    ensures !Ordered(cases)
  {
    if Ordered(cases) {
      OrderedPrefix(cases, n);
    }
  }

  // ---------------------------------------------------------------------
  // Selection
  // ---------------------------------------------------------------------

  function Keep(cases: seq<Case>, p: Case -> bool): seq<Case> {
    if cases == [] then []
    else
      var front, last := Keep(cases[..|cases| - 1], p), cases[|cases| - 1];
      if p(last) then front + [last] else front
  }

  /** `None` stands for the mode that selects everything. */
  function OfMode(mode: Option<Mode>): Case -> bool {
    (c: Case) => mode.None? || c.mode == mode.value
  }

  function WithId(caseId: string): Case -> bool {
    (c: Case) => c.caseId == caseId
  }

  function UpTo(target: Case): Case -> bool {
    (c: Case) => c.mode == target.mode && c.scenarioId == target.scenarioId && c.scenarioTurn <= target.scenarioTurn
  }

  /** The cases a suite runs; the empty selection is an error. */
  function Selected(cases: seq<Case>, mode: Option<Mode>, caseId: Option<string>): Result<seq<Case>, string> {
    var ofMode := Keep(cases, OfMode(mode));
    var chosen := if caseId.None? then ofMode
                  else
                    var hits := Keep(ofMode, WithId(caseId.value));
                    if hits != [] && hits[0].scenarioTurn > 1 then Keep(cases, UpTo(hits[0])) else hits;
    if chosen == [] then Err("no cases found") else Ok(chosen)
  }

  ghost predicate Accepted(cases: seq<Case>) {
    && Ordered(cases) && (forall c :: c in cases ==> ModeOk(c))
    && forall i, j :: 0 <= i < j < |cases| ==> cases[i].caseId != cases[j].caseId
  }

  lemma {:induction false} KeepMembers(cases: seq<Case>, p: Case -> bool)
    ensures forall c :: c in Keep(cases, p) <==> c in cases && p(c)
  {
    if cases != [] {
      KeepMembers(cases[..|cases| - 1], p);
      assert cases == cases[..|cases| - 1] + [cases[|cases| - 1]];
    }
  }

  /** A filter that keeps a scenario whole keeps its turns. */
  lemma {:induction false} KeepTurns(cases: seq<Case>, p: Case -> bool, scenario: string)
    requires forall c :: c in cases && c.scenarioId == scenario ==> p(c)
    ensures TurnsOf(Keep(cases, p), scenario) == TurnsOf(cases, scenario)
  {
    if cases != [] {
      var front, last := cases[..|cases| - 1], cases[|cases| - 1];
      assert cases == front + [last];
      KeepTurns(front, p, scenario);
    }
  }

  lemma {:induction false} NoTurns(cases: seq<Case>, scenario: string)
    requires forall c :: c in cases ==> c.scenarioId != scenario
    ensures TurnsOf(cases, scenario) == []
  {
    if cases != [] {
      NoTurns(cases[..|cases| - 1], scenario);
    }
  }

  /** Running a whole mode of an accepted manifest keeps every scenario complete. */
  lemma ModeSelectionOrdered(cases: seq<Case>, mode: Option<Mode>)
    requires Accepted(cases)
    ensures Ordered(Keep(cases, OfMode(mode)))
  {
    var kept := Keep(cases, OfMode(mode));
    KeepMembers(cases, OfMode(mode));
    forall s | s != "" ensures TurnsOf(kept, s) == OneTo(|TurnsOf(kept, s)|) {
      if mode == Some(Canaries) {
        forall c | c in kept ensures c.scenarioId != s {
          assert ModeOk(c);
        }
        NoTurns(kept, s);
      } else {
        KeepTurns(cases, OfMode(mode), s);
      }
    }
  }

  function Min(a: nat, b: nat): nat {
    if a <= b then a else b
  }

  /** `replay` holds the turns 1 to n of one scenario, in order. */
  ghost predicate Replay(replay: seq<Case>, scenario: string, n: nat) {
    |replay| == n && forall i :: 0 <= i < n ==> replay[i].scenarioId == scenario && replay[i].scenarioTurn == i + 1
  }

  lemma {:induction false} UpToIsReplay(cases: seq<Case>, target: Case)
    requires Ordered(cases) && (forall c :: c in cases ==> ModeOk(c)) && target.scenarioId != ""
      && target.mode == Fixtures
    ensures Replay(Keep(cases, UpTo(target)), target.scenarioId,
                   Min(|TurnsOf(cases, target.scenarioId)|, target.scenarioTurn))
  {
    if cases != [] {
      var front, last := cases[..|cases| - 1], cases[|cases| - 1];
      assert cases == front + [last];
      OrderedFront(cases);
      OrderedAppend(front, last);
      assert ModeOk(last);
      UpToIsReplay(front, target);
    }
  }

  lemma {:induction false} TurnIsReached(cases: seq<Case>, c: Case)
    requires Ordered(cases) && c in cases && c.scenarioId != ""
    ensures 1 <= c.scenarioTurn <= |TurnsOf(cases, c.scenarioId)|
  {
    var front, last := cases[..|cases| - 1], cases[|cases| - 1];
    assert cases == front + [last];
    OrderedFront(cases);
    OrderedAppend(front, last);
    if c in front {
      TurnIsReached(front, c);
    }
  }

  lemma {:induction false} KeepOneId(cases: seq<Case>, c: Case)
    requires c in cases && forall i, j :: 0 <= i < j < |cases| ==> cases[i].caseId != cases[j].caseId
    ensures Keep(cases, WithId(c.caseId)) == [c]
  {
    var front, last := cases[..|cases| - 1], cases[|cases| - 1];
    assert cases == front + [last];
    if c in front {
      KeepOneId(front, c);
      var i :| 0 <= i < |front| && front[i] == c;
      assert cases[i].caseId != cases[|cases| - 1].caseId;
    } else {
      KeepNoId(front, c.caseId);
    }
  }

  lemma {:induction false} KeepNoId(cases: seq<Case>, caseId: string)
    requires forall i :: 0 <= i < |cases| ==> cases[i].caseId != caseId
    ensures Keep(cases, WithId(caseId)) == []
  {
    if cases != [] {
      KeepNoId(cases[..|cases| - 1], caseId);
    }
  }

  lemma {:induction false} KeepDistinctIds(cases: seq<Case>, p: Case -> bool)
    requires forall i, j :: 0 <= i < j < |cases| ==> cases[i].caseId != cases[j].caseId
    ensures forall i, j :: 0 <= i < j < |Keep(cases, p)| ==> Keep(cases, p)[i].caseId != Keep(cases, p)[j].caseId
  {
    if cases != [] {
      var front, last := cases[..|cases| - 1], cases[|cases| - 1];
      KeepDistinctIds(front, p);
      KeepMembers(front, p);
      var kept := Keep(front, p);
      forall i | 0 <= i < |kept| ensures kept[i].caseId != last.caseId {
        assert kept[i] in front;
        var j :| 0 <= j < |front| && front[j] == kept[i];
        assert cases[j] == kept[i];
      }
    }
  }

  /**
    Choosing turn t of a scenario in an accepted manifest runs exactly the turns 1 to t, in order; choosing a case
    without a scenario runs that case.
   */
  lemma ChosenTurnReplaysScenario(cases: seq<Case>, mode: Option<Mode>, c: Case)
    requires Accepted(cases) && c in cases && OfMode(mode)(c)
    ensures Selected(cases, mode, Some(c.caseId)).Ok?
    ensures var run := Selected(cases, mode, Some(c.caseId)).value;
            if c.scenarioId == "" then run == [c]
            else Replay(run, c.scenarioId, c.scenarioTurn) && run[c.scenarioTurn - 1] == c
  {
    var ofMode := Keep(cases, OfMode(mode));
    KeepMembers(cases, OfMode(mode));
    KeepDistinctIds(cases, OfMode(mode));
    KeepOneId(ofMode, c);
    if c.scenarioId != "" {
      TurnIsReached(cases, c);
      if c.scenarioTurn > 1 {
        assert ModeOk(c);
        UpToIsReplay(cases, c);
        KeepMembers(cases, UpTo(c));
        var run := Keep(cases, UpTo(c));
        var i :| 0 <= i < |run| && run[i] == c;
      }
    }
  }

  // ---------------------------------------------------------------------
  // Histories
  // ---------------------------------------------------------------------

  datatype Execution = Execution(answer: string, receipts: string)

  /** One attempt: the case as it was executed, and the execution unless it was skipped or failed. */
  datatype Attempt = Attempt(effective: Case, attemptIndex: nat, execution: Option<Execution>)

  const NO_RESPONSE: string := "(no usable " + "response)"

  /** What a turn leaves in the history of its repeat: the prompt and the answer. */
  function Exchange(c: Case, execution: Option<Execution>): (pair: seq<Message>)
    ensures |pair| == 2
  {
    [Message("benchmark", c.prompt, ""),
     Message("Nycti",
             if execution.Some? && !Blank(execution.value.answer) then execution.value.answer else NO_RESPONSE,
             if execution.Some? then execution.value.receipts else "")]
  }

  function Plain(aged: seq<Aged>): seq<Message> {
    seq(|aged|, i requires 0 <= i < |aged| => aged[i].message)
  }

  /**
    `case_with_scenario_history`: the recent messages and the history, the last twenty of them, shortened and dated.
   */
  function WithHistory(c: Case, history: seq<Message>): Case {
    if c.scenarioId == "" || c.scenarioTurn <= 1 || history == [] then c
    else
      var messages := LastN(Plain(c.recentMessages) + history, MAX_DISCORD_MESSAGES);
      c.(recentMessages := seq(|messages|, i requires 0 <= i < |messages| =>
           Aged(messages[i].(content := SliceTo(messages[i].content, MAX_MESSAGE_CHARS)), |messages| - i)))
  }

  /** The attempts of one repeat, exchange by exchange, of the cases of a scenario among the first `n`. */
  function Exchanges(cases: seq<Case>, rows: seq<seq<Attempt>>, repeat: nat, scenario: string, n: nat): seq<Message>
    requires n <= |cases| && n <= |rows| && forall j :: 0 <= j < n ==> repeat < |rows[j]|
  {
    if n == 0 then []
    else
      var front := Exchanges(cases, rows, repeat, scenario, n - 1);
      if cases[n - 1].scenarioId == scenario then front + Exchange(cases[n - 1], rows[n - 1][repeat].execution)
        else front
  }

  type Histories = map<(nat, string), seq<Message>>

  function HistoryOf(histories: Histories, repeat: nat, scenario: string): seq<Message> {
    if (repeat, scenario) in histories then histories[(repeat, scenario)] else []
  }

  ghost predicate FullRows(rows: seq<seq<Attempt>>, repeats: nat) {
    forall j :: 0 <= j < |rows| ==> |rows[j]| == repeats
  }

  /** The histories of all repeats after the first `n` cases. */
  ghost predicate HistoriesOk(cases: seq<Case>, rows: seq<seq<Attempt>>, repeats: nat, histories: Histories, n: nat)
    requires n <= |cases| && n <= |rows| && FullRows(rows, repeats)
  {
    forall r: nat, s: string :: r < repeats && s != "" ==> HistoryAt(cases, rows, repeats, histories, n, r, s)
  }

  ghost predicate HistoryAt(cases: seq<Case>, rows: seq<seq<Attempt>>, repeats: nat, histories: Histories, n: nat,
                            r: nat, s: string)
    requires n <= |cases| && n <= |rows| && FullRows(rows, repeats) && r < repeats
  {
    HistoryOf(histories, r + 1, s) == Exchanges(cases, rows, r, s, n)
  }

  /** Every attempt saw its own repeat's earlier exchanges, and nothing else. */
  ghost predicate RowOk(cases: seq<Case>, rows: seq<seq<Attempt>>, repeats: nat, k: nat)
    requires k < |rows| <= |cases| && FullRows(rows, repeats)
  {
    forall r: nat :: r < repeats ==> AttemptOk(cases, rows, repeats, k, r, rows[k][r])
  }

  ghost predicate AttemptOk(cases: seq<Case>, rows: seq<seq<Attempt>>, repeats: nat, k: nat, r: nat, a: Attempt)
    requires k < |cases| && k <= |rows| && FullRows(rows, repeats) && r < repeats
  {
    && a.attemptIndex == r + 1
    && a.effective == WithHistory(cases[k], if cases[k].scenarioId == "" then []
                                            else Exchanges(cases, rows, r, cases[k].scenarioId, k))
  }

  function Flatten(rows: seq<seq<Attempt>>): seq<Attempt> {
    if rows == [] then [] else Flatten(rows[..|rows| - 1]) + rows[|rows| - 1]
  }

  lemma {:induction false} ExchangesAgree(cases: seq<Case>, rows: seq<seq<Attempt>>, more: seq<seq<Attempt>>,
                                          repeat: nat, scenario: string, n: nat)
    requires n <= |cases| && n <= |rows| && rows <= more && forall j :: 0 <= j < n ==> repeat < |rows[j]|
    ensures forall j :: 0 <= j < n ==> repeat < |more[j]|
    ensures Exchanges(cases, rows, repeat, scenario, n) == Exchanges(cases, more, repeat, scenario, n)
  {
    assert forall j :: 0 <= j < n ==> more[j] == rows[j];
    if n > 0 {
      ExchangesAgree(cases, rows, more, repeat, scenario, n - 1);
    }
  }

  /** A history while case `k` is only done for the repeats in `row`. */
  ghost predicate PartAt(cases: seq<Case>, rows: seq<seq<Attempt>>, repeats: nat, histories: Histories, k: nat,
                         row: seq<Attempt>, r: nat, s: string)
    requires k < |cases| && k <= |rows| && FullRows(rows, repeats) && r < repeats
  {
    var more := if r < |row| && s == cases[k].scenarioId then Exchange(cases[k], row[r].execution) else [];
    HistoryOf(histories, r + 1, s) == Exchanges(cases, rows, r, s, k) + more
  }

  /** A case without a scenario leaves no history. */
  function Extended(histories: Histories, c: Case, repeat: nat, execution: Option<Execution>): Histories {
    if c.scenarioId == "" then histories
    else histories[(repeat, c.scenarioId) := HistoryOf(histories, repeat, c.scenarioId) + Exchange(c, execution)]
  }

  lemma PartNext(cases: seq<Case>, rows: seq<seq<Attempt>>, repeats: nat, histories: Histories, k: nat,
                 row: seq<Attempt>, a: Attempt, next: Histories, more: seq<Attempt>)
    requires k < |cases| && k <= |rows| && FullRows(rows, repeats) && |row| < repeats
    requires next == Extended(histories, cases[k], |row| + 1, a.execution) && more == row + [a]
    requires forall r: nat, s: string :: r < repeats && s != "" ==>
      PartAt(cases, rows, repeats, histories, k, row, r, s)
    ensures forall r: nat, s: string :: r < repeats && s != "" ==> PartAt(cases, rows, repeats, next, k, more, r, s)
  {
    forall r: nat, s: string | r < repeats && s != "" ensures PartAt(cases, rows, repeats, next, k, more, r, s) {
      assert PartAt(cases, rows, repeats, histories, k, row, r, s);
    }
  }

  /** The inner loop: one case, `repeats` times. What an execution yields is arbitrary. */
  method RunCase(cases: seq<Case>, ghost rows: seq<seq<Attempt>>, repeats: nat, k: nat, histories0: Histories)
    returns (row: seq<Attempt>, histories: Histories)
    requires k < |cases| && |rows| == k && FullRows(rows, repeats) && HistoriesOk(cases, rows, repeats, histories0, k)
    ensures |row| == repeats && FullRows(rows + [row], repeats)
    ensures HistoriesOk(cases, rows + [row], repeats, histories, k + 1)
    ensures RowOk(cases, rows + [row], repeats, k)
  {
    var c := cases[k];
    row, histories := [], histories0;
    forall r: nat, s: string | r < repeats && s != "" ensures PartAt(cases, rows, repeats, histories, k, row, r, s) {
      assert HistoryAt(cases, rows, repeats, histories0, k, r, s);
    }
    while |row| < repeats
      invariant |row| <= repeats
      invariant forall r: nat, s: string :: r < repeats && s != "" ==>
        PartAt(cases, rows, repeats, histories, k, row, r, s)
      invariant forall r: nat :: r < |row| ==> AttemptOk(cases, rows, repeats, k, r, row[r])
    {
      if c.scenarioId != "" {
        assert PartAt(cases, rows, repeats, histories, k, row, |row|, c.scenarioId);
      }
      var effective := WithHistory(c, HistoryOf(histories, |row| + 1, c.scenarioId));
      var execution: Option<Execution> := *;
      var attempt := Attempt(effective, |row| + 1, execution);
      var next := Extended(histories, c, |row| + 1, execution);
      PartNext(cases, rows, repeats, histories, k, row, attempt, next, row + [attempt]);
      row, histories := row + [attempt], next;
    }
    RowFinished(cases, rows, repeats, k, row, histories);
  }

  /** What the inner loop has established when its case is done. */
  lemma RowFinished(cases: seq<Case>, rows: seq<seq<Attempt>>, repeats: nat, k: nat, row: seq<Attempt>,
                    histories: Histories)
    requires k < |cases| && |rows| == k && FullRows(rows, repeats) && |row| == repeats
    requires forall r: nat, s: string :: r < repeats && s != "" ==>
      PartAt(cases, rows, repeats, histories, k, row, r, s)
    requires forall r: nat :: r < repeats ==> AttemptOk(cases, rows, repeats, k, r, row[r])
    ensures FullRows(rows + [row], repeats) && HistoriesOk(cases, rows + [row], repeats, histories, k + 1)
    ensures RowOk(cases, rows + [row], repeats, k)
  {
    var all, n := rows + [row], k + 1;
    forall r: nat, s: string | r < repeats && s != "" ensures HistoryAt(cases, all, repeats, histories, n, r, s) {
      assert PartAt(cases, rows, repeats, histories, k, row, r, s);
      ExchangesAgree(cases, rows, all, r, s, k);
    }
    forall r: nat | r < repeats ensures AttemptOk(cases, all, repeats, k, r, all[k][r]) {
      assert AttemptOk(cases, rows, repeats, k, r, row[r]);
      ExchangesAgree(cases, rows, all, r, cases[k].scenarioId, k);
    }
  }

  lemma RowOkLater(cases: seq<Case>, rows: seq<seq<Attempt>>, row: seq<Attempt>, repeats: nat, k: nat)
    requires k < |rows| < |cases| && FullRows(rows, repeats) && |row| == repeats && RowOk(cases, rows, repeats, k)
    ensures FullRows(rows + [row], repeats) && RowOk(cases, rows + [row], repeats, k)
  {
    forall r: nat | r < repeats ensures AttemptOk(cases, rows + [row], repeats, k, r, (rows + [row])[k][r]) {
      assert AttemptOk(cases, rows, repeats, k, r, rows[k][r]);
      ExchangesAgree(cases, rows, rows + [row], r, cases[k].scenarioId, k);
    }
  }

  /**
    The attempts of `run_live_benchmark_suite`: case by case, each `repeats` times. Whatever the executions yield, each
    attempt is run on its case with exactly its own repeat's earlier exchanges.
   */
  method RunSuite(cases: seq<Case>, repeats: int)
    returns (attempts: Result<seq<Attempt>, string>, ghost rows: seq<seq<Attempt>>)
    ensures attempts.Err? <==> !(1 <= repeats <= MAX_REPEATS)
    ensures attempts.Ok? ==> |rows| == |cases| && FullRows(rows, repeats) && attempts.value == Flatten(rows)
                             && forall k :: 0 <= k < |cases| ==> RowOk(cases, rows, repeats, k)
  {
    rows := [];
    if !(1 <= repeats <= MAX_REPEATS) {
      return Err("repeats out of range"), rows;
    }
    var done: seq<Attempt>, histories: Histories, k := [], map[], 0;
    while k < |cases|
      invariant 0 <= k == |rows| <= |cases| && FullRows(rows, repeats) && done == Flatten(rows)
      invariant HistoriesOk(cases, rows, repeats, histories, k)
      invariant forall j :: 0 <= j < k ==> RowOk(cases, rows, repeats, j)
    {
      var row;
      row, histories := RunCase(cases, rows, repeats, k, histories);
      forall j | 0 <= j < k ensures RowOk(cases, rows + [row], repeats, j) {
        RowOkLater(cases, rows, row, repeats, j);
      }
      assert (rows + [row])[..k] == rows;
      rows := rows + [row];
      done := done + row;
      k := k + 1;
    }
    attempts := Ok(done);
  }

  // ---------------------------------------------------------------------
  // What a history holds
  // ---------------------------------------------------------------------

  /** The exchange at place `i` is the one of the scenario's turn `i + 1` in this repeat. */
  ghost predicate TurnAt(cases: seq<Case>, rows: seq<seq<Attempt>>, repeat: nat, scenario: string, n: nat,
                         history: seq<Message>, i: nat)
    requires n <= |cases| && n <= |rows| && (forall j :: 0 <= j < n ==> repeat < |rows[j]|) && 2 * i + 2 <= |history|
  {
    exists j :: 0 <= j < n && cases[j].scenarioId == scenario && cases[j].scenarioTurn == i + 1
                && history[2 * i..2 * i + 2] == Exchange(cases[j], rows[j][repeat].execution)
  }

  /** All exchanges of a scenario's turns stand in the history, in order. */
  ghost predicate AllTurns(cases: seq<Case>, rows: seq<seq<Attempt>>, repeat: nat, scenario: string, n: nat,
                           history: seq<Message>, turns: nat)
    requires n <= |cases| && n <= |rows| && forall j :: 0 <= j < n ==> repeat < |rows[j]|
  {
    |history| == 2 * turns && forall i: nat :: i < turns ==> TurnAt(cases, rows, repeat, scenario, n, history, i)
  }

  lemma AllTurnsLater(cases: seq<Case>, rows: seq<seq<Attempt>>, repeat: nat, scenario: string, n: nat,
                      history: seq<Message>, turns: nat)
    requires n < |cases| && n < |rows| && (forall j :: 0 <= j <= n ==> repeat < |rows[j]|)
    requires AllTurns(cases, rows, repeat, scenario, n, history, turns)
    ensures AllTurns(cases, rows, repeat, scenario, n + 1, history, turns)
  {
    var m := n + 1;
    forall i: nat | i < turns ensures TurnAt(cases, rows, repeat, scenario, m, history, i) {
      assert TurnAt(cases, rows, repeat, scenario, n, history, i);
    }
  }

  lemma AllTurnsMore(cases: seq<Case>, rows: seq<seq<Attempt>>, repeat: nat, scenario: string, n: nat,
                     history: seq<Message>, turns: nat)
    requires n < |cases| && n < |rows| && (forall j :: 0 <= j <= n ==> repeat < |rows[j]|)
    requires AllTurns(cases, rows, repeat, scenario, n, history, turns)
    requires cases[n].scenarioId == scenario && cases[n].scenarioTurn == turns + 1
    ensures AllTurns(cases, rows, repeat, scenario, n + 1, history + Exchange(cases[n], rows[n][repeat].execution),
                     turns + 1)
  {
    var all, m := history + Exchange(cases[n], rows[n][repeat].execution), n + 1;
    forall i: nat | i < turns + 1 ensures TurnAt(cases, rows, repeat, scenario, m, all, i) {
      if i < turns {
        assert TurnAt(cases, rows, repeat, scenario, n, history, i);
        assert all[2 * i..2 * i + 2] == history[2 * i..2 * i + 2];
      } else {
        assert all[2 * i..2 * i + 2] == Exchange(cases[n], rows[n][repeat].execution);
      }
    }
  }

  lemma {:induction false} ExchangesAreTurns(cases: seq<Case>, rows: seq<seq<Attempt>>, repeat: nat, scenario: string,
                                             n: nat)
    requires n <= |cases| && n <= |rows| && (forall j :: 0 <= j < n ==> repeat < |rows[j]|)
    requires Ordered(cases[..n]) && scenario != ""
    ensures AllTurns(cases, rows, repeat, scenario, n, Exchanges(cases, rows, repeat, scenario, n),
                     |TurnsOf(cases[..n], scenario)|)
  {
    if n > 0 {
      var c, front := cases[n - 1], Exchanges(cases, rows, repeat, scenario, n - 1);
      assert cases[..n] == cases[..n - 1] + [c];
      OrderedFront(cases[..n]);
      OrderedAppend(cases[..n - 1], c);
      ExchangesAreTurns(cases, rows, repeat, scenario, n - 1);
      if c.scenarioId == scenario {
        AllTurnsMore(cases, rows, repeat, scenario, n - 1, front, |TurnsOf(cases[..n - 1], scenario)|);
      } else {
        AllTurnsLater(cases, rows, repeat, scenario, n - 1, front, |TurnsOf(cases[..n - 1], scenario)|);
      }
    }
  }

  /**
    When turn t of repeat r starts, its history is exactly that repeat's t - 1 earlier prompt and answer pairs,
    for every ordered list of cases: a whole mode of an accepted manifest, or the replay of one scenario.
   */
  lemma HistoryIsEarlierTurns(cases: seq<Case>, rows: seq<seq<Attempt>>, repeats: nat, k: nat, r: nat)
    requires Ordered(cases) && k < |cases| == |rows| && FullRows(rows, repeats) && r < repeats
    requires RowOk(cases, rows, repeats, k) && cases[k].scenarioId != ""
    ensures var h := Exchanges(cases, rows, r, cases[k].scenarioId, k);
            && rows[k][r].effective == WithHistory(cases[k], h)
            && cases[k].scenarioTurn >= 1
            && AllTurns(cases, rows, r, cases[k].scenarioId, k, h, cases[k].scenarioTurn - 1)
  {
    OrderedPrefix(cases, k);
    OrderedPrefix(cases, k + 1);
    assert cases[..k + 1] == cases[..k] + [cases[k]];
    OrderedAppend(cases[..k], cases[k]);
    ExchangesAreTurns(cases, rows, r, cases[k].scenarioId, k);
  }

  lemma {:induction false} ReplayIsOrdered(replay: seq<Case>, scenario: string, n: nat)
    requires Replay(replay, scenario, n) && scenario != ""
    ensures Ordered(replay) && |TurnsOf(replay, scenario)| == n
  {
    if n > 0 {
      var front, last := replay[..n - 1], replay[n - 1];
      ReplayIsOrdered(front, scenario, n - 1);
      assert replay == front + [last];
      OrderedAppend(front, last);
    }
  }

  /** Whatever is selected from an accepted manifest is ordered, so `HistoryIsEarlierTurns` applies to it. */
  lemma SelectionsAreOrdered(cases: seq<Case>, mode: Option<Mode>, caseId: Option<string>)
    requires Accepted(cases) && Selected(cases, mode, caseId).Ok?
    ensures Ordered(Selected(cases, mode, caseId).value)
  {
    if caseId.None? {
      ModeSelectionOrdered(cases, mode);
    } else {
      var ofMode := Keep(cases, OfMode(mode));
      var hits := Keep(ofMode, WithId(caseId.value));
      var run := Selected(cases, mode, caseId).value;
      KeepMembers(cases, OfMode(mode));
      KeepMembers(ofMode, WithId(caseId.value));
      assert hits != [];
      var c := hits[0];
      ChosenTurnReplaysScenario(cases, mode, c);
      if c.scenarioId == "" {
        OrderedAppend([], c);
        assert [] + [c] == [c];
      } else {
        ReplayIsOrdered(run, c.scenarioId, c.scenarioTurn);
      }
    }
  }
}
