/** Which of the model's tool calls run: fresh calls first, then a batch within the weighted budget. */
module AgentTools {
  import opened Collections
  import opened Wrappers

  datatype ToolCall = ToolCall(id: string, name: string, arguments: string)

  datatype ToolSpec = ToolSpec(costUnits: int, minWorkSeconds: real)

  /** The tool registry, the signature of a call (a hash of its name and arguments), and the two special tool names. */
  datatype Registry = Registry(
    spec: string -> Option<ToolSpec>, signature: (string, string) -> string, contextTool: string,
      deepResearchTool: string)

  function Signature(r: Registry, c: ToolCall): string {
    r.signature(c.name, c.arguments)
  }

  function Signatures(r: Registry, calls: seq<ToolCall>): set<string> {
    set c | c in calls :: Signature(r, c)
  }

  function Names(calls: seq<ToolCall>): set<string> {
    set c | c in calls :: c.name
  }

  lemma SignaturesAppend(r: Registry, calls: seq<ToolCall>, c: ToolCall)
    ensures Signatures(r, calls + [c]) == Signatures(r, calls) + {Signature(r, c)}
    ensures Names(calls + [c]) == Names(calls) + {c.name}
  {
    var all := calls + [c];
    assert all[|calls|] == c;
    forall d | d in calls ensures d in all {
    }
    forall x | x in Signatures(r, calls) ensures x in Signatures(r, all) {
      var d :| d in calls && Signature(r, d) == x;
      assert d in all;
    }
    forall x | x in Names(calls) ensures x in Names(all) {
      var d :| d in calls && d.name == x;
      assert d in all;
    }
  }

  // ---------------------------------------------------------------------
  // Fresh calls
  // ---------------------------------------------------------------------

  /** What a run knows when it looks at a batch. */
  datatype Known = Known(available: set<string>, seen: set<string>, attempted: set<string>)

  /** A call is fresh after the calls already kept from the same batch. */
  predicate IsFresh(r: Registry, k: Known, kept: seq<ToolCall>, c: ToolCall) {
    && c.name in k.available
    && Signature(r, c) !in k.seen && Signature(r, c) !in Signatures(r, kept)
    && !(c.name == r.contextTool && (c.name in k.attempted || c.name in Names(kept)))
  }

  function Fresh(r: Registry, k: Known, calls: seq<ToolCall>): seq<ToolCall> {
    if calls == [] then []
    else
      var kept, c := Fresh(r, k, calls[..|calls| - 1]), calls[|calls| - 1];
      if IsFresh(r, k, kept, c) then kept + [c] else kept
  }

  /** `select_fresh_tool_calls`: the fresh calls, and how many skipped results were appended. */
  method SelectFresh(r: Registry, k: Known, calls: seq<ToolCall>) returns (freshCalls: seq<ToolCall>, skipped: nat)
    ensures freshCalls == Fresh(r, k, calls) && |freshCalls| + skipped == |calls|
  {
    freshCalls, skipped := [], 0;
    var batch: set<string>, i := {}, 0;
    while i < |calls|
      invariant 0 <= i <= |calls| && |freshCalls| + skipped == i
      invariant freshCalls == Fresh(r, k, calls[..i]) && batch == Signatures(r, freshCalls)
    {
      var c := calls[i];
      assert calls[..i + 1][..i] == calls[..i];
      i := i + 1;
      if c.name !in k.available {
        skipped := skipped + 1;
        continue;
      }
      var signature := Signature(r, c);
      if signature in k.seen || signature in batch {
        skipped := skipped + 1;
        continue;
      }
      if c.name == r.contextTool && (c.name in k.attempted || c.name in Names(freshCalls)) {
        skipped := skipped + 1;
        continue;
      }
      SignaturesAppend(r, freshCalls, c);
      batch := batch + {signature};
      freshCalls := freshCalls + [c];
    }
    assert calls[..i] == calls;
  }

  /** No two calls in the list are the same request, and at most one reads the channel context. */
  ghost predicate Unrepeated(r: Registry, calls: seq<ToolCall>) {
    forall i, j :: 0 <= i < j < |calls| ==> Differ(r, calls[i], calls[j])
  }

  predicate Differ(r: Registry, c: ToolCall, d: ToolCall) {
    Signature(r, c) != Signature(r, d) && !(c.name == r.contextTool && d.name == r.contextTool)
  }

  ghost predicate NewToRun(r: Registry, k: Known, calls: seq<ToolCall>) {
    forall i :: 0 <= i < |calls| ==> CallIsNew(r, k, calls[i])
  }

  predicate CallIsNew(r: Registry, k: Known, c: ToolCall) {
    c.name in k.available && Signature(r, c) !in k.seen && !(c.name == r.contextTool && c.name in k.attempted)
  }

  lemma FreshDiffers(r: Registry, k: Known, kept: seq<ToolCall>, c: ToolCall, i: nat)
    requires i < |kept| && IsFresh(r, k, kept, c)
    ensures Differ(r, kept[i], c)
  {
    assert kept[i] in kept;
    assert Signature(r, kept[i]) in Signatures(r, kept) && kept[i].name in Names(kept);
  }

  lemma {:induction false} FreshIsUnrepeated(r: Registry, k: Known, calls: seq<ToolCall>)
    ensures Unrepeated(r, Fresh(r, k, calls)) && NewToRun(r, k, Fresh(r, k, calls))
  {
    if calls != [] {
      var kept, c := Fresh(r, k, calls[..|calls| - 1]), calls[|calls| - 1];
      FreshIsUnrepeated(r, k, calls[..|calls| - 1]);
      if IsFresh(r, k, kept, c) {
        forall i | 0 <= i < |kept| ensures Differ(r, kept[i], c) {
          FreshDiffers(r, k, kept, c, i);
        }
      }
    }
  }

  lemma {:induction false} FreshKeepsPrefix(r: Registry, k: Known, calls: seq<ToolCall>, n: nat)
    requires n <= |calls|
    ensures Fresh(r, k, calls[..n]) <= Fresh(r, k, calls)
  {
    if n < |calls| {
      FreshKeepsPrefix(r, k, calls[..|calls| - 1], n);
      assert calls[..|calls| - 1][..n] == calls[..n];
    } else {
      assert calls[..n] == calls;
    }
  }

  /** Nothing is dropped without a reason: a call the model made is kept, or it is unauthorised or repeated. */
  lemma DroppedForAReason(r: Registry, k: Known, calls: seq<ToolCall>, n: nat)
    requires n < |calls| && CallIsNew(r, k, calls[n])
    ensures calls[n] in Fresh(r, k, calls)
         || exists d :: d in Fresh(r, k, calls) && !Differ(r, d, calls[n])
  {
    FreshKeepsPrefix(r, k, calls, n);
    FreshKeepsPrefix(r, k, calls, n + 1);
    assert calls[..n + 1][..n] == calls[..n];
    var kept, c, all := Fresh(r, k, calls[..n]), calls[n], Fresh(r, k, calls);
    if IsFresh(r, k, kept, c) {
      assert Fresh(r, k, calls[..n + 1])[|kept|] == c;
      assert all[|kept|] == c;
    } else if Signature(r, c) in Signatures(r, kept) {
      var d :| d in kept && Signature(r, d) == Signature(r, c);
      assert d in all && !Differ(r, d, c);
    } else {
      assert c.name in Names(kept);
      var d :| d in kept && d.name == c.name;
      assert d in all && !Differ(r, d, c);
    }
  }

  // ---------------------------------------------------------------------
  // The weighted budget
  // ---------------------------------------------------------------------

  datatype Limits = Limits(costUnits: int, deepResearchCalls: int, workSeconds: real)

  datatype Selection = Selection(executable: seq<ToolCall>, skipped: seq<ToolCall>, costUnits: nat,
                                 deepResearchCalls: nat)

  function Cost(r: Registry, c: ToolCall): (cost: nat)
    ensures cost >= 1
  {
    Max(if r.spec(c.name).Some? then r.spec(c.name).value.costUnits else 1, 1)
  }

  predicate Startable(r: Registry, l: Limits, c: ToolCall) {
    r.spec(c.name).None? || l.workSeconds >= r.spec(c.name).value.minWorkSeconds
  }

  predicate IsDeep(r: Registry, c: ToolCall) {
    c.name == r.deepResearchTool
  }

  predicate Fits(r: Registry, l: Limits, s: Selection, c: ToolCall) {
    && !(IsDeep(r, c) && s.deepResearchCalls >= Max(l.deepResearchCalls, 0))
    && Startable(r, l, c)
    && s.costUnits + Cost(r, c) <= Max(l.costUnits, 0)
  }

  function Select(r: Registry, l: Limits, calls: seq<ToolCall>): Selection {
    if calls == [] then Selection([], [], 0, 0)
    else
      var s, c := Select(r, l, calls[..|calls| - 1]), calls[|calls| - 1];
      if Fits(r, l, s, c) then
        Selection(s.executable + [c], s.skipped, s.costUnits + Cost(r, c),
                  s.deepResearchCalls + if IsDeep(r, c) then 1 else 0)
      else s.(skipped := s.skipped + [c])
  }

  /** `select_tool_calls_within_budget`. */
  method SelectWithinBudget(r: Registry, l: Limits, calls: seq<ToolCall>) returns (s: Selection)
    ensures s == Select(r, l, calls)
  {
    var executable: seq<ToolCall>, skipped: seq<ToolCall>, cost: nat, deep: nat := [], [], 0, 0;
    var units, deepCalls := Max(l.costUnits, 0), Max(l.deepResearchCalls, 0);
    var i := 0;
    while i < |calls|
      invariant 0 <= i <= |calls|
      invariant Selection(executable, skipped, cost, deep) == Select(r, l, calls[..i])
    {
      var c := calls[i];
      assert calls[..i + 1][..i] == calls[..i];
      i := i + 1;
      if IsDeep(r, c) && deep >= deepCalls {
        skipped := skipped + [c];
        continue;
      }
      if r.spec(c.name).Some? && l.workSeconds < r.spec(c.name).value.minWorkSeconds {
        skipped := skipped + [c];
        continue;
      }
      var callCost := Cost(r, c);
      if cost + callCost > units {
        skipped := skipped + [c];
        continue;
      }
      executable := executable + [c];
      cost := cost + callCost;
      deep := deep + if IsDeep(r, c) then 1 else 0;
    }
    assert calls[..i] == calls;
    s := Selection(executable, skipped, cost, deep);
  }

  function CostOf(r: Registry, calls: seq<ToolCall>): nat {
    if calls == [] then 0 else CostOf(r, calls[..|calls| - 1]) + Cost(r, calls[|calls| - 1])
  }

  function DeepCount(r: Registry, calls: seq<ToolCall>): nat {
    if calls == [] then 0
    else DeepCount(r, calls[..|calls| - 1]) + if IsDeep(r, calls[|calls| - 1]) then 1 else 0
  }

  lemma {:induction false} CostOfConcat(r: Registry, a: seq<ToolCall>, b: seq<ToolCall>)
    ensures CostOf(r, a + b) == CostOf(r, a) + CostOf(r, b)
  {
    if b == [] {
      assert a + b == a;
    } else {
      CostOfConcat(r, a, b[..|b| - 1]);
      assert (a + b)[..|a + b| - 1] == a + b[..|b| - 1];
    }
  }

  lemma {:induction false} CallsCostAtLeastOne(r: Registry, calls: seq<ToolCall>)
    ensures |calls| <= CostOf(r, calls)
  {
    if calls != [] {
      CallsCostAtLeastOne(r, calls[..|calls| - 1]);
    }
  }

  /** A selection's totals are those of its calls, and stay within the limits. */
  ghost predicate WithinLimits(r: Registry, l: Limits, s: Selection) {
    && s.costUnits == CostOf(r, s.executable) && s.costUnits <= Max(l.costUnits, 0)
    && s.deepResearchCalls == DeepCount(r, s.executable) && s.deepResearchCalls <= Max(l.deepResearchCalls, 0)
  }

  /** The batch stays within both limits, and its totals are those of the calls in it. */
  lemma {:induction false} SelectionWithinLimits(r: Registry, l: Limits, calls: seq<ToolCall>)
    ensures WithinLimits(r, l, Select(r, l, calls))
  {
    if calls != [] {
      var front, c := calls[..|calls| - 1], calls[|calls| - 1];
      SelectionWithinLimits(r, l, front);
    }
  }

  /** Every call is either executed or answered with a skipped result. */
  lemma {:induction false} SelectionPartitions(r: Registry, l: Limits, calls: seq<ToolCall>)
    ensures var s := Select(r, l, calls); multiset(s.executable) + multiset(s.skipped) == multiset(calls)
  {
    if calls != [] {
      SelectionPartitions(r, l, calls[..|calls| - 1]);
      assert calls == calls[..|calls| - 1] + [calls[|calls| - 1]];
    }
  }

  /** A skipped call could not be added to the finished batch either. */
  lemma {:induction false} SkippedDoNotFit(r: Registry, l: Limits, calls: seq<ToolCall>, c: ToolCall)
    requires c in Select(r, l, calls).skipped
    ensures !Fits(r, l, Select(r, l, calls), c)
  {
    if calls != [] {
      var s := Select(r, l, calls[..|calls| - 1]);
      if c in s.skipped {
        SkippedDoNotFit(r, l, calls[..|calls| - 1], c);
      }
    }
  }

  /** Selecting for the budget keeps the calls in order, so what was unrepeated stays so. */
  lemma {:induction false} SelectionIsUnrepeated(r: Registry, k: Known, l: Limits, calls: seq<ToolCall>)
    requires Unrepeated(r, calls) && NewToRun(r, k, calls)
    ensures Unrepeated(r, Select(r, l, calls).executable) && NewToRun(r, k, Select(r, l, calls).executable)
    ensures forall c :: c in Select(r, l, calls).executable ==> c in calls
  {
    if calls != [] {
      var front, c := calls[..|calls| - 1], calls[|calls| - 1];
      SelectionIsUnrepeated(r, k, l, front);
      var s := Select(r, l, front);
      forall i | 0 <= i < |s.executable| ensures Differ(r, s.executable[i], c) && s.executable[i] in calls {
        assert s.executable[i] in front;
        var j :| 0 <= j < |front| && front[j] == s.executable[i];
        assert calls[j] == s.executable[i];
      }
    }
  }
}
