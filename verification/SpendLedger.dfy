/** The spend ledger of the bounded benchmark: reserve the worst case before a call, settle it once afterwards. */
module SpendLedger {
  import opened Wrappers

  /**
    Money is counted in half micro-dollars: 2.5 dollars per million tokens are five units a token, 12 are twenty-four.
   */
  const INPUT_UNITS: nat := 5
  const OUTPUT_UNITS: nat := 24
  const MAX_OUTPUT_CAP: nat := 8192
  const INPUT_HEADROOM: nat := 16384
  const MAX_INPUT_BOUND: nat := 100000

  datatype Stop = WrongModel | NotText | HostedTool | BadOutputCap | TooLong | NoBudget | UsageBeyondBound

  /** The value under a cap key: an integer, or something else (`null` included). */
  datatype Cap = Tokens(tokens: int) | NotAnInteger

  datatype Request = Request(
    model: string, serviceTier: string, hasPreviousResponse: bool, mentionsImage: bool, toolTypes: seq<string>,
    maxOutputTokens: Option<Cap>, maxCompletionTokens: Option<Cap>, maxTokens: Option<Cap>, rawBytes: nat)

  datatype Usage = Usage(inputTokens: nat, outputTokens: nat)

  datatype Row = Row(
    arm: string, inputBound: nat, outputCap: nat, reserved: nat, charged: nat, status: string, usage: Option<Usage>)

  const IN_FLIGHT: string := "in_flight"

  function Price(inputTokens: nat, outputTokens: nat): nat {
    inputTokens * INPUT_UNITS + outputTokens * OUTPUT_UNITS
  }

  /** The first of the three keys that is present decides. */
  function OutputCap(r: Request): Cap {
    if r.maxOutputTokens.Some? then r.maxOutputTokens.value
    else if r.maxCompletionTokens.Some? then r.maxCompletionTokens.value
    else if r.maxTokens.Some? then r.maxTokens.value
    else NotAnInteger
  }

  /** The checks that need no ledger. */
  function Preflight(r: Request): (stop: Option<Stop>)
    ensures stop.None? ==> OutputCap(r).Tokens? && 0 < OutputCap(r).tokens <= MAX_OUTPUT_CAP
  {
    if r.model != "gpt-5.6-terra" || r.serviceTier != "default" then Some(WrongModel)
    else if r.hasPreviousResponse || r.mentionsImage then Some(NotText)
    else if exists k :: 0 <= k < |r.toolTypes| && r.toolTypes[k] != "function" then Some(HostedTool)
    else if OutputCap(r).NotAnInteger? || !(0 < OutputCap(r).tokens <= MAX_OUTPUT_CAP) then Some(BadOutputCap)
    else if r.rawBytes + INPUT_HEADROOM > MAX_INPUT_BOUND then Some(TooLong)
    else None
  }

  function NewRow(arm: string, r: Request): Row
    requires Preflight(r).None?
  {
    var bound, cap := r.rawBytes + INPUT_HEADROOM, OutputCap(r).tokens;
    Row(arm, bound, cap, Price(bound, cap), Price(bound, cap), IN_FLIGHT, None)
  }

  function Charged(rows: seq<Row>): nat {
    if rows == [] then 0 else Charged(rows[..|rows| - 1]) + rows[|rows| - 1].charged
  }

  function AfterReserve(limit: int, rows: seq<Row>, arm: string, r: Request): Result<seq<Row>, Stop> {
    if Preflight(r).Some? then Err(Preflight(r).value)
    else if Charged(rows) + NewRow(arm, r).reserved > limit then Err(NoBudget)
    else Ok(rows + [NewRow(arm, r)])
  }

  function Settled(row: Row, usage: Option<Usage>, error: string): Row {
    var settled := row.(status := if error == "" then "ok" else error);
    if usage.None? then settled
    else settled.(usage := usage, charged := Price(usage.value.inputTokens, usage.value.outputTokens))
  }

  predicate WithinBounds(row: Row, usage: Option<Usage>) {
    usage.Some? ==> usage.value.inputTokens <= row.inputBound && usage.value.outputTokens <= row.outputCap
  }

  /** Usage beyond its bound raises, and the file keeps its old content. */
  function AfterFinish(rows: seq<Row>, index: nat, usage: Option<Usage>, error: string): Result<seq<Row>, Stop>
    requires index < |rows|
  {
    if WithinBounds(rows[index], usage) then Ok(rows[index := Settled(rows[index], usage, error)])
      else Err(UsageBeyondBound)
  }

  class LedgerFile {
    const limit: int
    var rows: seq<Row>

    constructor (limit: int)
      ensures rows == [] && this.limit == limit
    {
      this.limit, rows := limit, [];
    }

    method TotalCharged() returns (total: nat)
      ensures total == Charged(rows)
    {
      total := 0;
      var i := 0;
      while i < |rows|
        invariant 0 <= i <= |rows| && total == Charged(rows[..i])
      {
        assert rows[..i + 1][..i] == rows[..i];
        total := total + rows[i].charged;
        i := i + 1;
      }
      assert rows[..i] == rows;
    }

    /** `SpendLedger.reserve`. */
    method Reserve(arm: string, r: Request) returns (index: Result<nat, Stop>)
      modifies this`rows
      ensures var reserved := AfterReserve(limit, old(rows), arm, r);
              if reserved.Ok? then rows == reserved.value && index == Ok(|old(rows)|)
              else rows == old(rows) && index == Err(reserved.error)
    {
      var stop := Preflight(r);
      if stop.Some? {
        return Err(stop.value);
      }
      var row := NewRow(arm, r);
      var charged := TotalCharged();
      if charged + row.reserved > limit {
        return Err(NoBudget);
      }
      index := Ok(|rows|);
      rows := rows + [row];
    }

    /** `SpendLedger.finish`. */
    method Finish(index: nat, usage: Option<Usage>, error: string) returns (stop: Option<Stop>)
      requires index < |rows|
      modifies this`rows
      ensures var finished := AfterFinish(old(rows), index, usage, error);
              if finished.Ok? then rows == finished.value && stop == None
                else rows == old(rows) && stop == Some(finished.error)
    {
      var row := rows[index].(status := if error == "" then "ok" else error);
      if usage.Some? {
        var u := usage.value;
        if u.inputTokens > row.inputBound || u.outputTokens > row.outputCap {
          return Some(UsageBeyondBound);
        }
        row := row.(usage := usage, charged := Price(u.inputTokens, u.outputTokens));
      }
      rows := rows[index := row];
      stop := None;
    }
  }

  // ---------------------------------------------------------------------
  // Guarded calls, interleaved
  // ---------------------------------------------------------------------

  /** `open` are the indexes of guarded calls between their reservation and their `finally`. */
  datatype State = State(rows: seq<Row>, open: set<nat>)

  datatype Event = CallStarts(arm: string, request: Request) | CallEnds(index: nat, usage: Option<Usage>, error: string)

  /** A call that could not reserve is not made; a call ends once, whatever its outcome. */
  function Step(limit: int, s: State, e: Event): State {
    match e
    case CallStarts(arm, request) =>
      var reserved := AfterReserve(limit, s.rows, arm, request);
      if reserved.Ok? then State(reserved.value, s.open + {|s.rows|}) else s
    case CallEnds(index, usage, error) =>
      if index !in s.open || index >= |s.rows| then s
      else
        var finished := AfterFinish(s.rows, index, usage, error);
        State(if finished.Ok? then finished.value else s.rows, s.open - {index})
  }

  function After(limit: int, events: seq<Event>): State {
    if events == [] then State([], {}) else Step(limit, After(limit, events[..|events| - 1]), events[|events| - 1])
  }

  // ---------------------------------------------------------------------
  // The limit
  // ---------------------------------------------------------------------

  lemma ChargedAppend(rows: seq<Row>, row: Row)
    ensures Charged(rows + [row]) == Charged(rows) + row.charged
  {
    assert (rows + [row])[..|rows|] == rows;
  }

  lemma {:induction false} ChargedUpdate(rows: seq<Row>, index: nat, row: Row)
    requires index < |rows|
    ensures Charged(rows[index := row]) == Charged(rows) - rows[index].charged + row.charged
  {
    var front := rows[..|rows| - 1];
    if index == |rows| - 1 {
      assert rows[index := row][..|rows| - 1] == front;
    } else {
      ChargedUpdate(front, index, row);
      assert rows[index := row][..|rows| - 1] == front[index := row];
    }
  }

  /** An open row is still charged its whole reservation. */
  ghost predicate RowOk(s: State, k: nat)
    requires k < |s.rows|
  {
    && s.rows[k].reserved == Price(s.rows[k].inputBound, s.rows[k].outputCap)
    && s.rows[k].charged <= s.rows[k].reserved
    && (k in s.open ==> s.rows[k].charged == s.rows[k].reserved && s.rows[k].usage == None)
    && (s.rows[k].usage.Some? ==>
          && WithinBounds(s.rows[k], s.rows[k].usage)
          && s.rows[k].charged == Price(s.rows[k].usage.value.inputTokens, s.rows[k].usage.value.outputTokens))
    && (s.rows[k].usage.None? ==> s.rows[k].charged == s.rows[k].reserved)
  }

  ghost predicate Inv(limit: int, s: State) {
    && (forall k :: 0 <= k < |s.rows| ==> RowOk(s, k))
    && (forall k :: k in s.open ==> k < |s.rows|)
    && (s.rows == [] || Charged(s.rows) <= limit)
  }

  lemma StartKeepsInv(limit: int, s: State, arm: string, r: Request)
    requires Inv(limit, s)
    ensures Inv(limit, Step(limit, s, CallStarts(arm, r)))
  {
    if AfterReserve(limit, s.rows, arm, r).Ok? {
      ReservedKeepsInv(limit, s, NewRow(arm, r));
    }
  }

  lemma ReservedKeepsInv(limit: int, s: State, row: Row)
    requires Inv(limit, s) && Charged(s.rows) + row.reserved <= limit
    requires row.reserved == row.charged == Price(row.inputBound, row.outputCap) && row.usage == None
    ensures Inv(limit, State(s.rows + [row], s.open + {|s.rows|}))
  {
    var next := State(s.rows + [row], s.open + {|s.rows|});
    ChargedAppend(s.rows, row);
    forall k | 0 <= k < |next.rows| ensures RowOk(next, k) {
      if k < |s.rows| {
        assert RowOk(s, k);
      }
    }
  }

  lemma EndKeepsInv(limit: int, s: State, index: nat, usage: Option<Usage>, error: string)
    requires Inv(limit, s)
    ensures Inv(limit, Step(limit, s, CallEnds(index, usage, error)))
  {
    var next := Step(limit, s, CallEnds(index, usage, error));
    if index in s.open {
      var row := s.rows[index];
      assert RowOk(s, index);
      if WithinBounds(row, usage) {
        ChargedUpdate(s.rows, index, Settled(row, usage, error));
      }
      forall k | 0 <= k < |next.rows| ensures RowOk(next, k) {
        assert RowOk(s, k);
      }
    }
  }

  lemma {:induction false} RunKeepsInv(limit: int, events: seq<Event>)
    ensures Inv(limit, After(limit, events))
  {
    if events != [] {
      var front, e := events[..|events| - 1], events[|events| - 1];
      RunKeepsInv(limit, front);
      if e.CallStarts? {
        StartKeepsInv(limit, After(limit, front), e.arm, e.request);
      } else {
        EndKeepsInv(limit, After(limit, front), e.index, e.usage, e.error);
      }
    }
  }

  /** Whatever the interleaving, the sum of the charged amounts stays within the limit. */
  lemma ChargedNeverExceedsLimit(limit: int, events: seq<Event>)
    ensures After(limit, events).rows != [] ==> Charged(After(limit, events).rows) <= limit
    ensures limit >= 0 ==> Charged(After(limit, events).rows) <= limit
  {
    RunKeepsInv(limit, events);
  }

  // ---------------------------------------------------------------------
  // True spend
  // ---------------------------------------------------------------------

  /** What the calls really used, row by row. */
  function TrueSpend(actual: seq<Usage>): nat {
    if actual == [] then 0
    else TrueSpend(actual[..|actual| - 1]) + Price(actual[|actual| - 1].inputTokens, actual[|actual| - 1].outputTokens)
  }

  /** Each call used no more than its bound, and what it reported, if anything, is what it used. */
  ghost predicate Honest(rows: seq<Row>, actual: seq<Usage>) {
    && |actual| == |rows|
    && forall k :: 0 <= k < |rows| ==>
      WithinBounds(rows[k], Some(actual[k])) && (rows[k].usage.Some? ==> rows[k].usage.value == actual[k])
  }

  lemma {:induction false} SpendCoveredByRows(rows: seq<Row>, actual: seq<Usage>)
    requires Honest(rows, actual) && forall k :: 0 <= k < |rows| ==> RowOk(State(rows, {}), k)
    ensures TrueSpend(actual) <= Charged(rows)
  {
    if rows != [] {
      var n := |rows| - 1;
      forall k | 0 <= k < n ensures RowOk(State(rows[..n], {}), k) {
        assert RowOk(State(rows, {}), k);
      }
      SpendCoveredByRows(rows[..n], actual[..n]);
      assert RowOk(State(rows, {}), n);
    }
  }

  /**
    If every call respects its preflight bound, the true spend, of calls still in flight too, is covered by the ledger.
   */
  lemma TrueSpendWithinLimit(limit: int, events: seq<Event>, actual: seq<Usage>)
    requires limit >= 0 && Honest(After(limit, events).rows, actual)
    ensures TrueSpend(actual) <= Charged(After(limit, events).rows) <= limit
  {
    RunKeepsInv(limit, events);
    var s := After(limit, events);
    forall k | 0 <= k < |s.rows| ensures RowOk(State(s.rows, {}), k) {
      assert RowOk(s, k);
    }
    SpendCoveredByRows(s.rows, actual);
  }

  /** Settling an index a second time is what the guard excludes: it can break the limit. */
  lemma FinishingTwiceBreaksLimit(arm: string, r: Request)
    requires Preflight(r).None?
    ensures var limit := NewRow(arm, r).reserved;
            var row := NewRow(arm, r);
            exists r0, r1, r2, r3 ::
              && AfterReserve(limit, [], arm, r) == Ok(r0)
              && |r0| == 1 && AfterFinish(r0, 0, Some(Usage(0, 0)), "") == Ok(r1)
              && AfterReserve(limit, r1, arm, r) == Ok(r2)
              && |r2| == 2 && AfterFinish(r2, 0, Some(Usage(row.inputBound, row.outputCap)), "") == Ok(r3)
              && Charged(r3) > limit
  {
    var row := NewRow(arm, r);
    var limit := row.reserved;
    ChargedAppend([], row);
    var r0 := [row];
    var r1 := [Settled(row, Some(Usage(0, 0)), "")];
    ChargedAppend([], r1[0]);
    assert [] + r1 == r1;
    var r2 := r1 + [row];
    var spent := Settled(r1[0], Some(Usage(row.inputBound, row.outputCap)), "");
    var r3 := [spent, row];
    assert r2[0 := spent] == r3;
    ChargedAppend([], spent);
    ChargedAppend([spent], row);
    assert [] + [row] == r0 && [spent] + [row] == r3 && [] + [spent] == [spent];
    assert Charged([]) == 0;
    assert spent.charged == limit;
    assert AfterReserve(limit, [], arm, r) == Ok(r0);
    assert r0[0 := r1[0]] == r1;
    assert AfterFinish(r0, 0, Some(Usage(0, 0)), "") == Ok(r1);
    assert AfterReserve(limit, r1, arm, r) == Ok(r2);
    assert AfterFinish(r2, 0, Some(Usage(row.inputBound, row.outputCap)), "") == Ok(r3);
  }

  // ---------------------------------------------------------------------
  // Rows are appended only
  // ---------------------------------------------------------------------

  ghost predicate SameBounds(a: Row, b: Row) {
    a.arm == b.arm && a.inputBound == b.inputBound && a.outputCap == b.outputCap && a.reserved == b.reserved
  }

  /**
    A row, once written, keeps its place, its bounds and its reservation; and once its call ended it never changes
    again.
   */
  lemma {:induction false} RowsAreAppendOnly(limit: int, events: seq<Event>, n: nat, k: nat)
    requires n <= |events| && k < |After(limit, events[..n]).rows|
    ensures k < |After(limit, events).rows|
      && SameBounds(After(limit, events[..n]).rows[k], After(limit, events).rows[k])
    ensures k !in After(limit, events[..n]).open ==>
              k !in After(limit, events).open && After(limit, events).rows[k] == After(limit, events[..n]).rows[k]
  {
    if n < |events| {
      var front := events[..|events| - 1];
      assert front[..n] == events[..n];
      RowsAreAppendOnly(limit, front, n, k);
    } else {
      assert events[..n] == events;
    }
  }
}
