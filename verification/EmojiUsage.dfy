/** Emoji usage counters: live increments and historical floors update the same bounded table. */
module EmojiUsage {
  import opened Collections
  import opened Wrappers

  const MAX_OBSERVED: nat := 200
  const MAX_RECENT: nat := 64
  const MAX_USES_PER_EMOJI: nat := 64

  type Source = string

  /** The key of one use. Its hash is taken as injective; a message is counted once whoever wrote it. */
  datatype Key = MessageUse(message: nat) | ReactionUse(message: nat, user: nat)

  datatype Entry = Entry(
    messages: nat, reactions: nat, uses: nat, recentUses: seq<Key>, historyUses: seq<Key>, lastMessage: nat,
      lastUsed: real)

  /** What the defaults of a missing record amount to. */
  const NO_ENTRY: Entry := Entry(0, 0, 0, [], [], 0, 0.0)

  datatype Learning = Learning(usage: map<Source, Entry>, managed: set<Source>)

  function Old(usage: map<Source, Entry>, source: Source): Entry {
    if source in usage then usage[source] else NO_ENTRY
  }

  function Later(a: real, b: real): real {
    if a >= b then a else b
  }

  // ---------------------------------------------------------------------
  // One live use
  // ---------------------------------------------------------------------

  /** A use that was counted before, as far as the entry remembers. */
  predicate Ignored(prior: Entry, key: Key) {
    || key in prior.recentUses || key in prior.historyUses
    || (key.MessageUse? && prior.lastMessage >= key.message)
  }

  function LastOf(keys: seq<Key>, n: nat): seq<Key> {
    if |keys| > n then keys[|keys| - n..] else keys
  }

  function Recorded(prior: Entry, key: Key, timestamp: real): Entry {
    Entry(
      prior.messages + if key.MessageUse? then 1 else 0,
      prior.reactions + if key.ReactionUse? then 1 else 0,
      prior.uses + 1,
      LastOf(prior.recentUses + [key], MAX_RECENT),
      prior.historyUses,
      if key.MessageUse? then Max(prior.lastMessage, key.message) else prior.lastMessage,
      timestamp)
  }

  // ---------------------------------------------------------------------
  // History
  // ---------------------------------------------------------------------

  datatype Use = Use(key: Key, timestamp: real)

  /** The bounded metadata of one emoji's scan; `uses` is a dictionary in insertion order. */
  datatype History = History(uses: seq<Use>, lastMessage: nat)

  function UseKeys(uses: seq<Use>): (keys: seq<Key>)
    ensures |keys| == |uses| && forall i :: 0 <= i < |uses| ==> keys[i] == uses[i].key
  {
    seq(|uses|, i requires 0 <= i < |uses| => uses[i].key)
  }

  /** What every scan keeps: distinct keys, at most 64, and no counted message beyond the last one. */
  ghost predicate HistoryOk(h: History) {
    && |h.uses| <= MAX_USES_PER_EMOJI
    && (forall i, j :: 0 <= i < j < |h.uses| ==> h.uses[i].key != h.uses[j].key)
    && (forall i :: 0 <= i < |h.uses| ==> UpTo(h.uses[i].key, h.lastMessage))
  }

  predicate UpTo(key: Key, last: nat) {
    key.MessageUse? ==> key.message <= last
  }

  class HistoricalEmoji {
    var uses: seq<Use>
    var lastMessage: nat

    function View(): History
      reads this
    {
      History(uses, lastMessage)
    }

    constructor ()
      ensures View() == History([], 0) && HistoryOk(View())
    {
      uses, lastMessage := [], 0;
    }

    /** `HistoricalEmoji.add`: past the cap a message still moves `lastMessage`, but is not kept. */
    method Add(key: Key, timestamp: real)
      requires HistoryOk(View())
      modifies this
      ensures HistoryOk(View())
      ensures lastMessage == if key.MessageUse? then Max(old(lastMessage), key.message) else old(lastMessage)
      ensures var kept := |old(uses)| < MAX_USES_PER_EMOJI && key !in UseKeys(old(uses));
              uses == if kept then old(uses) + [Use(key, timestamp)] else old(uses)
    {
      if key.MessageUse? {
        lastMessage := Max(lastMessage, key.message);
      }
      if |uses| < MAX_USES_PER_EMOJI && key !in UseKeys(uses) {
        uses := uses + [Use(key, timestamp)];
      }
    }
  }

  function MessageCount(uses: seq<Use>): nat {
    if uses == [] then 0
    else MessageCount(uses[..|uses| - 1]) + if uses[|uses| - 1].key.MessageUse? then 1 else 0
  }

  function LatestUse(uses: seq<Use>): real
    requires uses != []
  {
    if |uses| == 1 then uses[0].timestamp else Later(LatestUse(uses[..|uses| - 1]), uses[|uses| - 1].timestamp)
  }

  lemma {:induction false} MessageCountBounded(uses: seq<Use>)
    ensures MessageCount(uses) <= |uses|
  {
    if uses != [] {
      MessageCountBounded(uses[..|uses| - 1]);
    }
  }

  function ReactionCount(uses: seq<Use>): (n: nat) {
    MessageCountBounded(uses);
    |uses| - MessageCount(uses)
  }

  /** The floors: a merge never adds to a counter, it raises it to what the scan alone proves. */
  function Merged(prior: Entry, h: History): Entry
    requires h.uses != []
  {
    var messages, reactions := Max(prior.messages, MessageCount(h.uses)), Max(prior.reactions, ReactionCount(h.uses));
    Entry(messages, reactions, Max(prior.uses, messages + reactions), prior.recentUses, UseKeys(h.uses),
          Max(prior.lastMessage, h.lastMessage), Later(prior.lastUsed, LatestUse(h.uses)))
  }

  predicate Scanned(history: map<Source, History>, source: Source) {
    source in history && history[source].uses != []
  }

  function MergedUsage(usage: map<Source, Entry>, history: map<Source, History>): map<Source, Entry> {
    map source | source in usage.Keys + history.Keys && (source in usage || Scanned(history, source)) ::
      if Scanned(history, source) then Merged(Old(usage, source), history[source]) else usage[source]
  }

  // ---------------------------------------------------------------------
  // Eviction
  // ---------------------------------------------------------------------

  /** The oldest unmanaged entries are gone, just enough of them, and nothing else changed. */
  ghost predicate Evicted(usage: map<Source, Entry>, managed: set<Source>, after: map<Source, Entry>) {
    && after.Keys <= usage.Keys
    && (forall s :: s in after ==> after[s] == usage[s])
    && |after| == (if |usage| <= MAX_OBSERVED then |usage| else MAX_OBSERVED)
    && (forall s :: s in usage && s !in after ==> s !in managed)
    && (forall s, k :: s in usage && s !in after && k in after && k !in managed ==>
        usage[s].lastUsed <= usage[k].lastUsed)
  }

  method Oldest(usage: map<Source, Entry>, removable: set<Source>) returns (oldest: Source)
    requires removable != {} && removable <= usage.Keys
    ensures oldest in removable && forall s :: s in removable ==> usage[oldest].lastUsed <= usage[s].lastUsed
  {
    oldest :| oldest in removable;
    var rest := removable - {oldest};
    while rest != {}
      invariant rest <= removable && oldest in removable
      invariant forall s :: s in removable && s !in rest ==> usage[oldest].lastUsed <= usage[s].lastUsed
      decreases |rest|
    {
      var s :| s in rest;
      rest := rest - {s};
      if usage[s].lastUsed < usage[oldest].lastUsed {
        oldest := s;
      }
    }
  }

  /** The eviction loop. `None`: more than 200 managed entries, `min` of nothing raises and nothing is saved. */
  method Evict(usage: map<Source, Entry>, managed: set<Source>) returns (after: Option<map<Source, Entry>>)
    ensures after.None? <==> |usage.Keys * managed| > MAX_OBSERVED
    ensures after.Some? ==> Evicted(usage, managed, after.value)
  {
    var left := usage;
    while |left| > MAX_OBSERVED
      invariant left.Keys <= usage.Keys && (forall s :: s in left ==> left[s] == usage[s])
      invariant |left| >= (if |usage| <= MAX_OBSERVED then |usage| else MAX_OBSERVED) && |left| <= |usage|
      invariant usage.Keys * managed <= left.Keys
      invariant forall s, k :: s in usage && s !in left && k in left && k !in managed ==>
        usage[s].lastUsed <= usage[k].lastUsed
      decreases |left|
    {
      var removable := left.Keys - managed;
      assert |left.Keys| == |left|;
      if removable == {} {
        assert forall s :: s in left.Keys ==> s in managed || s in removable;
        assert left.Keys == usage.Keys * managed;
        return None;
      }
      var oldest := Oldest(left, removable);
      assert left.Keys == (left.Keys - {oldest}) + {oldest};
      left := left - {oldest};
    }
    SubsetSize(usage.Keys * managed, left.Keys);
    assert |left.Keys| == |left|;
    after := Some(left);
  }

  // ---------------------------------------------------------------------
  // The catalogue
  // ---------------------------------------------------------------------

  /** The state after the eviction loop ran on a copy: the copy is saved, or nothing is. */
  ghost predicate Saved(before: Learning, updated: map<Source, Entry>, after: Learning) {
    if |updated.Keys * before.managed| > MAX_OBSERVED then after == before
    else after.managed == before.managed && Evicted(updated, before.managed, after.usage)
  }

  /** The table while the sources in `rest` still wait to be merged. */
  ghost predicate MergedExcept(usage: map<Source, Entry>, history: map<Source, History>, rest: set<Source>,
                               merged: map<Source, Entry>) {
    && (forall s :: s in merged <==> s in usage || (Scanned(history, s) && s !in rest))
    && (forall s :: s in merged ==> MergedAt(usage, history, rest, merged, s))
  }

  ghost predicate MergedAt(usage: map<Source, Entry>, history: map<Source, History>, rest: set<Source>,
                           merged: map<Source, Entry>, s: Source)
    requires s in merged
  {
    if Scanned(history, s) && s !in rest then merged[s] == Merged(Old(usage, s), history[s])
    else s in usage && merged[s] == usage[s]
  }

  /** One source's scan enters the table; an empty scan is skipped. */
  function MergedWith(merged: map<Source, Entry>, source: Source, h: History): map<Source, Entry> {
    if h.uses == [] then merged else merged[source := Merged(Old(merged, source), h)]
  }

  /** The loop of `merge`. */
  method MergeSources(usage: map<Source, Entry>, history: map<Source, History>) returns (merged: map<Source, Entry>)
    ensures merged == MergedUsage(usage, history)
  {
    merged := usage;
    var rest := history.Keys;
    while rest != {}
      invariant rest <= history.Keys
      invariant MergedExcept(usage, history, rest, merged)
      decreases |rest|
    {
      var source :| source in rest;
      MergedOne(usage, history, rest, merged, source);
      merged := MergedWith(merged, source, history[source]);
      rest := rest - {source};
    }
    MergedAll(usage, history, merged);
  }

  lemma MergedOne(usage: map<Source, Entry>, history: map<Source, History>, rest: set<Source>,
                  merged: map<Source, Entry>, source: Source)
    requires MergedExcept(usage, history, rest, merged) && source in rest && rest <= history.Keys
    ensures MergedExcept(usage, history, rest - {source}, MergedWith(merged, source, history[source]))
  {
    var next := MergedWith(merged, source, history[source]);
    assert source in merged ==> MergedAt(usage, history, rest, merged, source);
    assert Old(merged, source) == Old(usage, source);
    forall s | s in next ensures MergedAt(usage, history, rest - {source}, next, s) {
      if s != source {
        assert MergedAt(usage, history, rest, merged, s);
      }
    }
  }

  lemma MergedAll(usage: map<Source, Entry>, history: map<Source, History>, merged: map<Source, Entry>)
    requires MergedExcept(usage, history, {}, merged)
    ensures merged == MergedUsage(usage, history)
  {
    var whole := MergedUsage(usage, history);
    forall s | s in merged ensures s in whole && merged[s] == whole[s] {
      assert MergedAt(usage, history, {}, merged, s);
    }
  }

  class EmojiLearning {
    var usage: map<Source, Entry>
    var managed: set<Source>

    function View(): Learning
      reads this
    {
      Learning(usage, managed)
    }

    constructor (managed: set<Source>)
      ensures View() == Learning(map[], managed)
    {
      usage, this.managed := map[], managed;
    }

    /** The end of `update_learning`: the eviction loop runs on the copy, and the copy is saved unless it raised. */
    method Commit(updated: map<Source, Entry>) returns (saved: bool)
      modifies this`usage
      ensures saved <==> |updated.Keys * managed| <= MAX_OBSERVED
      ensures Saved(old(View()), updated, View())
    {
      var kept := Evict(updated, managed);
      saved := kept.Some?;
      if saved {
        usage := kept.value;
      }
    }

    /** `record`, run by `update_learning` on a copy of the table. */
    method Record(source: Source, key: Key, timestamp: real) returns (changed: Result<bool, string>)
      modifies this`usage
      ensures Live(old(View()), source, key, timestamp, View())
      ensures changed == Ok(false) <==> Ignored(Old(old(usage), source), key)
      ensures changed.Err? <==> SaveFailed(old(View()), LiveUse(source, key, timestamp))
    {
      var prior := Old(usage, source);
      if Ignored(prior, key) {
        return Ok(false);
      }
      var saved := Commit(usage[source := Recorded(prior, key, timestamp)]);
      changed := if saved then Ok(true) else Err("no removable entry");
    }

    /** `merge`, run by `update_learning` on a copy of the table. */
    method Merge(history: map<Source, History>) returns (ok: bool)
      modifies this`usage
      ensures Merging(old(View()), history, View())
      ensures ok <==> !SaveFailed(old(View()), Backfill(history))
    {
      var merged := MergeSources(usage, history);
      ok := Commit(merged);
    }
  }

  /** One live use, as a relation between tables. */
  ghost predicate Live(before: Learning, source: Source, key: Key, timestamp: real, after: Learning) {
    var prior := Old(before.usage, source);
    if Ignored(prior, key) then after == before
    else Saved(before, before.usage[source := Recorded(prior, key, timestamp)], after)
  }

  ghost predicate Merging(before: Learning, history: map<Source, History>, after: Learning) {
    Saved(before, MergedUsage(before.usage, history), after)
  }

  // ---------------------------------------------------------------------
  // Runs: live uses, backfills and pool changes in any order
  // ---------------------------------------------------------------------

  datatype Event =
    | LiveUse(source: Source, key: Key, timestamp: real)
    | Backfill(history: map<Source, History>)
    | PoolChange(managed: set<Source>)

  ghost predicate Step(before: Learning, e: Event, after: Learning) {
    match e
    case LiveUse(source, key, timestamp) => Live(before, source, key, timestamp, after)
    case Backfill(history) => Merging(before, history, after)
    case PoolChange(managed) => after == before.(managed := managed)
  }

  ghost predicate EventOk(e: Event) {
    e.Backfill? ==> forall s :: s in e.history ==> HistoryOk(e.history[s])
  }

  datatype Run = Run(states: seq<Learning>, events: seq<Event>)

  ghost predicate StepOk(run: Run, k: nat)
    requires k < |run.events| < |run.states|
  {
    EventOk(run.events[k]) && Step(run.states[k], run.events[k], run.states[k + 1])
  }

  ghost predicate IsRun(run: Run) {
    && |run.states| == |run.events| + 1
    && run.states[0].usage == map[]
    && forall k :: 0 <= k < |run.events| ==> StepOk(run, k)
  }

  /** How a step left the entry of a source that is in the table afterwards. */
  predicate EntryStep(before: Learning, e: Event, s: Source, updated: Entry) {
    || (s in before.usage && updated == before.usage[s])
    || (e.LiveUse? && e.source == s && !Ignored(Old(before.usage, s), e.key)
        && updated == Recorded(Old(before.usage, s), e.key, e.timestamp))
    || (e.Backfill? && Scanned(e.history, s) && updated == Merged(Old(before.usage, s), e.history[s]))
  }

  lemma StepOfEntry(before: Learning, e: Event, after: Learning, s: Source)
    requires Step(before, e, after) && s in after.usage
    ensures EntryStep(before, e, s, after.usage[s])
  {
  }

  // ---------------------------------------------------------------------
  // What was ever delivered or scanned
  // ---------------------------------------------------------------------

  function MessageIds(uses: seq<Use>): set<nat> {
    set u | u in uses && u.key.MessageUse? :: u.key.message
  }

  function ReactionKeys(uses: seq<Use>): set<Key> {
    set u | u in uses && u.key.ReactionUse? :: u.key
  }

  function MessagesOf(e: Event, s: Source): set<nat> {
    match e
    case LiveUse(source, key, _) => if source == s && key.MessageUse? then {key.message} else {}
    case Backfill(history) => if s in history then MessageIds(history[s].uses) else {}
    case PoolChange(_) => {}
  }

  function ReactionsOf(e: Event, s: Source): set<Key> {
    match e
    case LiveUse(source, key, _) => if source == s && key.ReactionUse? then {key} else {}
    case Backfill(history) => if s in history then ReactionKeys(history[s].uses) else {}
    case PoolChange(_) => {}
  }

  /** The distinct messages delivered or scanned for a source by the first `n` events. */
  function MessagesSeen(events: seq<Event>, n: nat, s: Source): set<nat>
    requires n <= |events|
  {
    if n == 0 then {} else MessagesSeen(events, n - 1, s) + MessagesOf(events[n - 1], s)
  }

  function ReactionsSeen(events: seq<Event>, n: nat, s: Source): set<Key>
    requires n <= |events|
  {
    if n == 0 then {} else ReactionsSeen(events, n - 1, s) + ReactionsOf(events[n - 1], s)
  }

  function UpToLast(seen: set<nat>, last: nat): set<nat> {
    set m | m in seen && m <= last
  }

  ghost predicate DistinctUses(uses: seq<Use>) {
    forall i, j :: 0 <= i < j < |uses| ==> uses[i].key != uses[j].key
  }

  lemma IdsAppend(front: seq<Use>, last: Use)
    ensures MessageIds(front + [last]) == MessageIds(front) + if last.key.MessageUse? then {last.key.message} else {}
    ensures ReactionKeys(front + [last]) == ReactionKeys(front) + if last.key.ReactionUse? then {last.key} else {}
  {
    assert forall u :: u in front + [last] <==> u in front || u == last;
  }

  lemma LastIsNew(front: seq<Use>, last: Use)
    requires DistinctUses(front + [last])
    ensures last.key.MessageUse? ==> last.key.message !in MessageIds(front)
    ensures last.key !in ReactionKeys(front)
  {
    forall u | u in front ensures u.key != last.key {
      var i :| 0 <= i < |front| && front[i] == u;
      assert (front + [last])[i] == u && (front + [last])[|front|] == last;
    }
  }

  lemma {:induction false} MessageCountIsSize(uses: seq<Use>)
    requires DistinctUses(uses)
    ensures MessageCount(uses) == |MessageIds(uses)|
  {
    if uses != [] {
      var front, last := uses[..|uses| - 1], uses[|uses| - 1];
      assert uses == front + [last];
      MessageCountIsSize(front);
      IdsAppend(front, last);
      LastIsNew(front, last);
    }
  }

  lemma {:induction false} ReactionCountIsSize(uses: seq<Use>)
    requires DistinctUses(uses)
    ensures ReactionCount(uses) == |ReactionKeys(uses)|
  {
    if uses != [] {
      var front, last := uses[..|uses| - 1], uses[|uses| - 1];
      assert uses == front + [last];
      ReactionCountIsSize(front);
      IdsAppend(front, last);
      LastIsNew(front, last);
    }
  }

  // ---------------------------------------------------------------------
  // The invariant of an entry
  // ---------------------------------------------------------------------

  ghost predicate EntryOk(e: Entry, seen: set<nat>) {
    && e.uses == e.messages + e.reactions
    && e.messages <= |UpToLast(seen, e.lastMessage)|
    && (forall key :: key in e.recentUses || key in e.historyUses ==> UpTo(key, e.lastMessage))
  }

  lemma UpToGrows(seen: set<nat>, last: nat, more: set<nat>, later: nat)
    requires seen <= more && last <= later
    ensures |UpToLast(seen, last)| <= |UpToLast(more, later)|
  {
    SubsetSize(UpToLast(seen, last), UpToLast(more, later));
  }

  lemma RecordedOk(prior: Entry, key: Key, timestamp: real, seen: set<nat>)
    requires EntryOk(prior, seen) && !Ignored(prior, key)
    ensures EntryOk(Recorded(prior, key, timestamp), if key.MessageUse? then seen + {key.message} else seen)
  {
    var updated := Recorded(prior, key, timestamp);
    if key.MessageUse? {
      var before, after := UpToLast(seen, prior.lastMessage), UpToLast(seen + {key.message}, key.message);
      assert key.message !in before;
      SubsetSize(before + {key.message}, after);
    }
    forall k | k in updated.recentUses ensures UpTo(k, updated.lastMessage) {
      assert k in prior.recentUses + [key];
    }
  }

  lemma MergedMessages(prior: Entry, h: History, seen: set<nat>)
    requires h.uses != [] && HistoryOk(h) && prior.messages <= |UpToLast(seen, prior.lastMessage)|
    ensures Merged(prior, h).messages <= |UpToLast(seen + MessageIds(h.uses), Merged(prior, h).lastMessage)|
  {
    var all, last := seen + MessageIds(h.uses), Merged(prior, h).lastMessage;
    UpToGrows(seen, prior.lastMessage, all, last);
    MessageCountIsSize(h.uses);
    forall m | m in MessageIds(h.uses) ensures m in UpToLast(all, last) {
      var u :| u in h.uses && u.key.MessageUse? && u.key.message == m;
      var i :| 0 <= i < |h.uses| && h.uses[i] == u;
      assert UpTo(h.uses[i].key, h.lastMessage);
    }
    SubsetSize(MessageIds(h.uses), UpToLast(all, last));
  }

  lemma MergedOk(prior: Entry, h: History, seen: set<nat>)
    requires EntryOk(prior, seen) && h.uses != [] && HistoryOk(h)
    ensures EntryOk(Merged(prior, h), seen + MessageIds(h.uses))
  {
    MergedMessages(prior, h, seen);
    var updated := Merged(prior, h);
    forall k | k in updated.historyUses ensures UpTo(k, updated.lastMessage) {
      var i :| 0 <= i < |h.uses| && UseKeys(h.uses)[i] == k;
      assert UpTo(h.uses[i].key, h.lastMessage);
    }
  }

  lemma StepKeepsEntryOk(before: Learning, e: Event, after: Learning, s: Source, seen: set<nat>)
    requires Step(before, e, after) && EventOk(e) && s in after.usage
    requires s in before.usage ==> EntryOk(before.usage[s], seen)
    ensures EntryOk(after.usage[s], seen + MessagesOf(e, s))
  {
    StepOfEntry(before, e, after, s);
    var updated := after.usage[s];
    if s in before.usage && updated == before.usage[s] {
      UpToGrows(seen, updated.lastMessage, seen + MessagesOf(e, s), updated.lastMessage);
    } else if e.LiveUse? {
      RecordedOk(Old(before.usage, s), e.key, e.timestamp, seen);
      assert seen + {} == seen;
    } else {
      MergedOk(Old(before.usage, s), e.history[s], seen);
    }
  }

  lemma {:induction false} RunKeepsEntryOk(run: Run, k: nat, s: Source)
    requires IsRun(run) && k <= |run.events| && s in run.states[k].usage
    ensures EntryOk(run.states[k].usage[s], MessagesSeen(run.events, k, s))
  {
    if k > 0 {
      if s in run.states[k - 1].usage {
        RunKeepsEntryOk(run, k - 1, s);
      }
      assert StepOk(run, k - 1);
      StepKeepsEntryOk(run.states[k - 1], run.events[k - 1], run.states[k], s, MessagesSeen(run.events, k - 1, s));
    }
  }

  /**
    Over every interleaving: the total is the sum of the two counters, and the message counter is at most the number
    of distinct messages ever delivered or scanned for the emoji.
   */
  lemma MessagesNeverOvercount(run: Run, k: nat, s: Source)
    requires IsRun(run) && k <= |run.events| && s in run.states[k].usage
    ensures var e := run.states[k].usage[s];
            e.uses == e.messages + e.reactions && e.messages <= |MessagesSeen(run.events, k, s)|
  {
    RunKeepsEntryOk(run, k, s);
    var e, seen := run.states[k].usage[s], MessagesSeen(run.events, k, s);
    SubsetSize(UpToLast(seen, e.lastMessage), seen);
  }

  // ---------------------------------------------------------------------
  // Redelivery and repeated merges
  // ---------------------------------------------------------------------

  /** The entry is in the table in the states `i` to `k`: it was not evicted meanwhile. */
  predicate Present(run: Run, i: nat, k: nat, s: Source)
    requires k < |run.states|
  {
    forall t :: i <= t <= k ==> s in run.states[t].usage
  }

  predicate AtMost(a: Entry, b: Entry) {
    a.lastMessage <= b.lastMessage && a.messages <= b.messages && a.reactions <= b.reactions
  }

  lemma StepGrows(run: Run, k: nat, s: Source)
    requires IsRun(run) && k < |run.events| && s in run.states[k].usage && s in run.states[k + 1].usage
    ensures AtMost(run.states[k].usage[s], run.states[k + 1].usage[s])
  {
    assert StepOk(run, k);
    StepOfEntry(run.states[k], run.events[k], run.states[k + 1], s);
  }

  lemma {:induction false} CountersGrow(run: Run, i: nat, k: nat, s: Source)
    requires IsRun(run) && i <= k <= |run.events| && Present(run, i, k, s)
    ensures s in run.states[i].usage && s in run.states[k].usage
    ensures AtMost(run.states[i].usage[s], run.states[k].usage[s])
  {
    assert s in run.states[i].usage && s in run.states[k].usage;
    if i < k {
      assert s in run.states[k - 1].usage;
      CountersGrow(run, i, k - 1, s);
      StepGrows(run, k - 1, s);
    }
  }

  /** The eviction loop of the step raised, so nothing was saved. */
  predicate SaveFailed(before: Learning, e: Event) {
    match e
    case LiveUse(source, key, timestamp) =>
      var prior := Old(before.usage, source);
      !Ignored(prior, key)
        && |before.usage[source := Recorded(prior, key, timestamp)].Keys * before.managed| > MAX_OBSERVED
    case Backfill(history) => |MergedUsage(before.usage, history).Keys * before.managed| > MAX_OBSERVED
    case PoolChange(_) => false
  }

  /** The event delivered message `m` of emoji `s`, or its scan went past it. */
  predicate Covers(e: Event, s: Source, m: nat) {
    match e
    case LiveUse(source, key, _) => source == s && key == MessageUse(m)
    case Backfill(history) => Scanned(history, s) && m <= history[s].lastMessage
    case PoolChange(_) => false
  }

  lemma CoveredIsRemembered(run: Run, i: nat, s: Source, m: nat)
    requires IsRun(run) && i < |run.events| && s in run.states[i + 1].usage
    requires !SaveFailed(run.states[i], run.events[i]) && Covers(run.events[i], s, m)
    ensures run.states[i + 1].usage[s].lastMessage >= m
  {
    assert StepOk(run, i);
    var before, e := run.states[i], run.events[i];
    if s in before.usage {
      RunKeepsEntryOk(run, i, s);
    }
    CoverStep(before, e, run.states[i + 1], s, m, MessagesSeen(run.events, i, s));
  }

  lemma CoverStep(before: Learning, e: Event, after: Learning, s: Source, m: nat, seen: set<nat>)
    requires Step(before, e, after) && !SaveFailed(before, e) && Covers(e, s, m) && s in after.usage
    requires EntryOk(Old(before.usage, s), seen)
    ensures after.usage[s].lastMessage >= m
  {
    if e.LiveUse? && Ignored(Old(before.usage, s), e.key) {
      assert UpTo(MessageUse(m), Old(before.usage, s).lastMessage);
    }
  }

  /**
    A message that was delivered or scanned before is ignored while the entry stays: the table does not change at all.
   */
  lemma RedeliveredMessageIgnored(run: Run, i: nat, k: nat, s: Source, m: nat)
    requires IsRun(run) && i < k < |run.events| && Present(run, i + 1, k, s)
    requires Covers(run.events[i], s, m) && !SaveFailed(run.states[i], run.events[i])
    requires run.events[k].LiveUse? && run.events[k].source == s && run.events[k].key == MessageUse(m)
    ensures run.states[k + 1] == run.states[k]
  {
    CountersGrow(run, i + 1, k, s);
    CoveredIsRemembered(run, i, s, m);
    assert StepOk(run, k);
  }

  lemma MergeRaisesFloors(run: Run, i: nat, s: Source)
    requires IsRun(run) && i < |run.events| && s in run.states[i + 1].usage
    requires run.events[i].Backfill? && Scanned(run.events[i].history, s) && !SaveFailed(run.states[i], run.events[i])
    ensures var h, e := run.events[i].history[s], run.states[i + 1].usage[s];
            MessageCount(h.uses) <= e.messages && ReactionCount(h.uses) <= e.reactions
  {
    assert StepOk(run, i);
  }

  /** Merging the same scan again changes none of the three counters while the entry stays. */
  lemma RepeatedMergeKeepsCounters(run: Run, i: nat, k: nat, s: Source)
    requires IsRun(run) && i < k < |run.events| && Present(run, i + 1, k + 1, s)
    requires run.events[i].Backfill? && run.events[k].Backfill?
    requires Scanned(run.events[i].history, s) && s in run.events[k].history
    requires run.events[k].history[s] == run.events[i].history[s] && !SaveFailed(run.states[i], run.events[i])
    ensures s in run.states[k].usage && s in run.states[k + 1].usage
    ensures var a, b := run.states[k].usage[s], run.states[k + 1].usage[s];
            a.messages == b.messages && a.reactions == b.reactions && a.uses == b.uses
  {
    CountersGrow(run, i + 1, k, s);
    assert s in run.states[k + 1].usage;
    MergeRaisesFloors(run, i, s);
    RunKeepsEntryOk(run, k, s);
    assert StepOk(run, k);
    StepOfEntry(run.states[k], run.events[k], run.states[k + 1], s);
    MergedAgain(run.states[k].usage[s], run.events[k].history[s], MessagesSeen(run.events, k, s));
  }

  lemma MergedAgain(e: Entry, h: History, seen: set<nat>)
    requires h.uses != [] && EntryOk(e, seen) && MessageCount(h.uses) <= e.messages
      && ReactionCount(h.uses) <= e.reactions
    ensures Merged(e, h).messages == e.messages && Merged(e, h).reactions == e.reactions && Merged(e, h).uses == e.uses
  {
  }

  // ---------------------------------------------------------------------
  // Reactions
  // ---------------------------------------------------------------------

  /** A reaction to a counted emoji changes the table exactly when its key is in neither window. */
  lemma ReactionCountedIff(before: Learning, s: Source, key: Key, timestamp: real, after: Learning)
    requires Live(before, s, key, timestamp, after) && key.ReactionUse? && s in before.usage && s in after.usage
    requires !SaveFailed(before, LiveUse(s, key, timestamp))
    ensures after.usage[s].reactions == before.usage[s].reactions
            <==> key in before.usage[s].recentUses || key in before.usage[s].historyUses
  {
  }

  /** No live reaction that was seen before has dropped out of both windows of a present entry. */
  ghost predicate ReactionsRemembered(run: Run, n: nat, s: Source)
    requires IsRun(run) && n <= |run.events|
  {
    forall k :: 0 <= k < n ==> Remembered(run, k, s)
  }

  predicate Remembered(run: Run, k: nat, s: Source)
    requires k < |run.events| < |run.states|
  {
    var e, usage := run.events[k], run.states[k].usage;
    e.LiveUse? && e.source == s && e.key in ReactionsSeen(run.events, k, s) && s in usage ==> Ignored(usage[s], e.key)
  }

  lemma StepKeepsReactions(run: Run, k: nat, s: Source)
    requires IsRun(run) && k < |run.events| && Remembered(run, k, s) && s in run.states[k + 1].usage
    requires s in run.states[k].usage ==> run.states[k].usage[s].reactions <= |ReactionsSeen(run.events, k, s)|
    ensures run.states[k + 1].usage[s].reactions <= |ReactionsSeen(run.events, k + 1, s)|
  {
    assert StepOk(run, k);
    var before, e, seen := run.states[k], run.events[k], ReactionsSeen(run.events, k, s);
    StepOfEntry(before, e, run.states[k + 1], s);
    var updated := run.states[k + 1].usage[s];
    SubsetSize(seen, seen + ReactionsOf(e, s));
    if s in before.usage && updated == before.usage[s] {
    } else if e.LiveUse? {
      if e.key.ReactionUse? {
        SubsetSize({e.key}, seen + {e.key});
      }
    } else {
      ReactionCountIsSize(e.history[s].uses);
      SubsetSize(ReactionKeys(e.history[s].uses), seen + ReactionsOf(e, s));
    }
  }

  /** While redelivered reactions are still remembered, reactions are not over-counted either. */
  lemma {:induction false} RememberedReactionsNeverOvercount(run: Run, k: nat, s: Source)
    requires IsRun(run) && k <= |run.events| && ReactionsRemembered(run, k, s) && s in run.states[k].usage
    ensures run.states[k].usage[s].reactions <= |ReactionsSeen(run.events, k, s)|
  {
    if k > 0 {
      if s in run.states[k - 1].usage {
        RememberedReactionsNeverOvercount(run, k - 1, s);
      }
      StepKeepsReactions(run, k - 1, s);
    }
  }

  lemma SmallTableIsSaved(before: Learning, s: Source, e: Entry)
    requires before.managed == {}
    ensures Saved(before, map[s := e], Learning(map[s := e], {}))
  {
    assert (map[s := e]).Keys * before.managed == {};
  }

  lemma OneSourceMerged(usage: map<Source, Entry>, s: Source, h: History)
    requires usage.Keys <= {s} && h.uses != []
    ensures MergedUsage(usage, map[s := h]) == map[s := Merged(Old(usage, s), h)]
  {
  }

  /** Merging a scan of a single use. */
  lemma SingleUseMerged(prior: Entry, use: Use, last: nat)
    ensures var m := Max(prior.messages, if use.key.MessageUse? then 1 else 0);
            var r := Max(prior.reactions, if use.key.ReactionUse? then 1 else 0);
            Merged(prior, History([use], last))
            == Entry(m, r, Max(prior.uses, m + r), prior.recentUses, [use.key], Max(prior.lastMessage, last),
                     Later(prior.lastUsed, use.timestamp))
  {
    assert [use][..0] == [];
    assert MessageCount([use]) == if use.key.MessageUse? then 1 else 0;
    assert UseKeys([use]) == [use.key];
  }

  function Table(s: Source, e: Entry): Learning {
    Learning(map[s := e], {})
  }

  /** Two scans of one emoji, then a live use. */
  function ScansThenUse(s: Source, first: History, second: History, key: Key, e1: Entry, e2: Entry, e3: Entry): Run {
    Run([Learning(map[], {}), Table(s, e1), Table(s, e2), Table(s, e3)],
        [Backfill(map[s := first]), Backfill(map[s := second]), LiveUse(s, key, 3.0)])
  }

  lemma ScansThenUseIsRun(s: Source, first: History, second: History, key: Key, e1: Entry, e2: Entry, e3: Entry)
    requires first.uses != [] && second.uses != [] && HistoryOk(first) && HistoryOk(second)
    requires e1 == Merged(NO_ENTRY, first) && e2 == Merged(e1, second)
    requires !Ignored(e2, key) && e3 == Recorded(e2, key, 3.0)
    ensures IsRun(ScansThenUse(s, first, second, key, e1, e2, e3))
  {
    var run := ScansThenUse(s, first, second, key, e1, e2, e3);
    OneSourceMerged(map[], s, first);
    BackfillStep(run, 0, s, first, e1);
    OneSourceMerged(map[s := e1], s, second);
    BackfillStep(run, 1, s, second, e2);
    LiveStep(run, 2, s, e2, key, e3);
    ThreeSteps(run);
  }

  lemma BackfillStep(run: Run, k: nat, s: Source, h: History, e: Entry)
    requires k < |run.events| < |run.states| && HistoryOk(h)
    requires run.events[k] == Backfill(map[s := h]) && run.states[k + 1] == Table(s, e) && run.states[k].managed == {}
    requires MergedUsage(run.states[k].usage, map[s := h]) == map[s := e]
    ensures StepOk(run, k)
  {
    SmallTableIsSaved(run.states[k], s, e);
  }

  lemma LiveStep(run: Run, k: nat, s: Source, before: Entry, key: Key, e: Entry)
    requires k < |run.events| < |run.states|
    requires run.events[k] == LiveUse(s, key, 3.0) && run.states[k] == Table(s, before)
      && run.states[k + 1] == Table(s, e)
    requires !Ignored(before, key) && e == Recorded(before, key, 3.0)
    ensures StepOk(run, k)
  {
    SmallTableIsSaved(Table(s, before), s, e);
    assert (map[s := before])[s := e] == map[s := e];
  }

  lemma ThreeSteps(run: Run)
    requires |run.events| == 3 && |run.states| == 4 && run.states[0].usage == map[]
    requires StepOk(run, 0) && StepOk(run, 1) && StepOk(run, 2)
    ensures IsRun(run)
  {
  }

  /** The scan that replaces `historyUses` may forget a reaction, which is then counted a second time. */
  lemma ReactionsCanOvercount(s: Source)
    ensures exists run: Run :: IsRun(run) && |run.events| == 3 && Overcounted(run, 3, s)
  {
    var reaction, message := ReactionUse(7, 1), MessageUse(9);
    var first, second := History([Use(reaction, 1.0)], 0), History([Use(message, 2.0)], 9);
    var e1 := Merged(NO_ENTRY, first);
    var e2 := Merged(e1, second);
    var e3 := Recorded(e2, reaction, 3.0);
    SingleUseMerged(NO_ENTRY, Use(reaction, 1.0), 0);
    SingleUseMerged(e1, Use(message, 2.0), 9);
    ScansThenUseIsRun(s, first, second, reaction, e1, e2, e3);
    var run := ScansThenUse(s, first, second, reaction, e1, e2, e3);
    OnlyOneReaction(run.events, s, reaction);
    assert Overcounted(run, 3, s);
  }

  predicate Overcounted(run: Run, k: nat, s: Source)
    requires k <= |run.events| < |run.states|
  {
    s in run.states[k].usage && run.states[k].usage[s].reactions > |ReactionsSeen(run.events, k, s)|
  }

  lemma OnlyOneReaction(events: seq<Event>, s: Source, reaction: Key)
    requires |events| == 3
    requires forall k :: 0 <= k < 3 ==> ReactionsOf(events[k], s) <= {reaction}
    ensures |ReactionsSeen(events, 3, s)| <= 1
  {
    assert ReactionsSeen(events, 1, s) <= {reaction};
    assert ReactionsSeen(events, 2, s) <= {reaction};
    SubsetSize(ReactionsSeen(events, 3, s), {reaction});
  }
}
