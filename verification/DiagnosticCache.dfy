/** The bounded cache of response diagnostics and its message-id index. Times are whole numbers on one clock. */
module DiagnosticCache {
  import opened Collections
  import opened Wrappers

  datatype Snapshot = Snapshot(capturedAt: int, channelId: int, sourceUserId: int, replyText: string,
                               botMessageIds: seq<int>)

  // ---------------------------------------------------------------------
  // Retention and the index
  // ---------------------------------------------------------------------

  function Since(snapshots: seq<Snapshot>, cutoff: int): seq<Snapshot> {
    if snapshots == [] then []
    else
      var front, last := Since(snapshots[..|snapshots| - 1], cutoff), snapshots[|snapshots| - 1];
      if last.capturedAt >= cutoff then front + [last] else front
  }

  function Pruned(snapshots: seq<Snapshot>, maxEntries: nat, cutoff: int): seq<Snapshot> {
    Since(LastN(snapshots, maxEntries), cutoff)
  }

  /** The newest snapshot that carries a message id. */
  function NewestWith(snapshots: seq<Snapshot>, messageId: int): Option<Snapshot> {
    if snapshots == [] then None
    else if messageId in snapshots[|snapshots| - 1].botMessageIds then Some(snapshots[|snapshots| - 1])
    else NewestWith(snapshots[..|snapshots| - 1], messageId)
  }

  /** The newest snapshot of a channel and, when given, a user. */
  function NewestIn(snapshots: seq<Snapshot>, channelId: int, user: Option<int>): Option<Snapshot> {
    if snapshots == [] then None
    else
      var last := snapshots[|snapshots| - 1];
      if last.channelId == channelId && (user.None? || last.sourceUserId == user.value) then Some(last)
      else NewestIn(snapshots[..|snapshots| - 1], channelId, user)
  }

  /** What a search over the retained snapshots, newest first, finds. */
  function Found(snapshots: seq<Snapshot>, channelId: int, reference: Option<int>,
                 user: Option<int>): Option<Snapshot> {
    if reference.Some? then
      var newest := NewestWith(snapshots, reference.value);
      if newest.None? || newest.value.channelId != channelId then None else newest
    else NewestIn(snapshots, channelId, user)
  }

  /** The index holds exactly the ids of the snapshots, each with the newest snapshot that carries it. */
  ghost predicate Indexed(snapshots: seq<Snapshot>, byId: map<int, Snapshot>) {
    forall id :: IndexedAt(snapshots, byId, id)
  }

  predicate IndexedAt(snapshots: seq<Snapshot>, byId: map<int, Snapshot>, id: int) {
    (if id in byId then Some(byId[id]) else None) == NewestWith(snapshots, id)
  }

  /** Adding one snapshot's ids, one by one. */
  function WithIds(byId: map<int, Snapshot>, snapshot: Snapshot, n: nat): map<int, Snapshot>
    requires n <= |snapshot.botMessageIds|
  {
    if n == 0 then byId else WithIds(byId, snapshot, n - 1)[snapshot.botMessageIds[n - 1] := snapshot]
  }

  lemma {:induction false} WithIdsAt(byId: map<int, Snapshot>, snapshot: Snapshot, n: nat, id: int)
    requires n <= |snapshot.botMessageIds|
    ensures id in WithIds(byId, snapshot, n) <==> id in byId || id in snapshot.botMessageIds[..n]
    ensures id in snapshot.botMessageIds[..n] ==> WithIds(byId, snapshot, n)[id] == snapshot
    ensures id !in snapshot.botMessageIds[..n] && id in byId ==> WithIds(byId, snapshot, n)[id] == byId[id]
  {
    if n > 0 {
      WithIdsAt(byId, snapshot, n - 1, id);
      assert snapshot.botMessageIds[..n] == snapshot.botMessageIds[..n - 1] + [snapshot.botMessageIds[n - 1]];
    }
  }

  lemma IndexedAppend(snapshots: seq<Snapshot>, byId: map<int, Snapshot>, snapshot: Snapshot)
    requires Indexed(snapshots, byId)
    ensures Indexed(snapshots + [snapshot], WithIds(byId, snapshot, |snapshot.botMessageIds|))
  {
    var n := |snapshot.botMessageIds|;
    assert (snapshots + [snapshot])[..|snapshots|] == snapshots;
    assert snapshot.botMessageIds[..n] == snapshot.botMessageIds;
    forall id ensures IndexedAt(snapshots + [snapshot], WithIds(byId, snapshot, n), id) {
      WithIdsAt(byId, snapshot, n, id);
      assert IndexedAt(snapshots, byId, id);
    }
  }

  class ResponseDiagnosticCache {
    const maxEntries: nat
    const maxAge: int
    var snapshots: seq<Snapshot>
    var byMessageId: map<int, Snapshot>

    ghost predicate Valid()
      reads this
    {
      maxEntries >= 1 && |snapshots| <= maxEntries && Indexed(snapshots, byMessageId)
    }

    constructor (maxEntries: int, maxAge: int)
      ensures Valid() && snapshots == [] && this.maxAge == maxAge
      ensures this.maxEntries == if maxEntries >= 1 then maxEntries else 1
    {
      this.maxEntries := if maxEntries >= 1 then maxEntries else 1;
      this.maxAge := maxAge;
      snapshots, byMessageId := [], map[];
    }

    /** The loop that enters one snapshot's ids into the index. */
    method IndexSnapshot(snapshot: Snapshot)
      modifies this`byMessageId
      ensures byMessageId == WithIds(old(byMessageId), snapshot, |snapshot.botMessageIds|)
    {
      var n := 0;
      while n < |snapshot.botMessageIds|
        invariant 0 <= n <= |snapshot.botMessageIds|
        invariant byMessageId == WithIds(old(byMessageId), snapshot, n)
      {
        byMessageId := byMessageId[snapshot.botMessageIds[n] := snapshot];
        n := n + 1;
      }
    }

    /** The rebuilt `_by_message_id`. */
    method Rebuild()
      modifies this`byMessageId
      ensures Indexed(snapshots, byMessageId)
    {
      byMessageId := map[];
      var k := 0;
      assert snapshots[..0] == [];
      while k < |snapshots|
        invariant 0 <= k <= |snapshots|
        invariant Indexed(snapshots[..k], byMessageId)
      {
        IndexedAppend(snapshots[..k], byMessageId, snapshots[k]);
        assert snapshots[..k + 1] == snapshots[..k] + [snapshots[k]];
        IndexSnapshot(snapshots[k]);
        k := k + 1;
      }
      assert snapshots[..k] == snapshots;
    }

    method Prune(now: int)
      requires maxEntries >= 1
      modifies this
      ensures Valid() && snapshots == Pruned(old(snapshots), maxEntries, now - maxAge)
    {
      var cutoff := now - maxAge;
      var recent := LastN(snapshots, maxEntries);
      var retained: seq<Snapshot>, k := [], 0;
      while k < |recent|
        invariant 0 <= k <= |recent|
        invariant retained == Since(recent[..k], cutoff) && |retained| <= k
        invariant snapshots == old(snapshots)
      {
        assert recent[..k + 1][..k] == recent[..k];
        if recent[k].capturedAt >= cutoff {
          retained := retained + [recent[k]];
        }
        k := k + 1;
      }
      assert recent[..k] == recent;
      snapshots := retained;
      Rebuild();
    }

    /** The dictionary entries set before the prune are rebuilt by it. */
    method Record(snapshot: Snapshot, botMessageIds: seq<int>)
      requires Valid()
      modifies this
      ensures Valid()
      ensures var stored := snapshot.(botMessageIds := Dedupe(botMessageIds));
              snapshots == Pruned(old(snapshots) + [stored], maxEntries, snapshot.capturedAt - maxAge)
    {
      var stored := snapshot.(botMessageIds := Dedupe(botMessageIds));
      snapshots := snapshots + [stored];
      IndexSnapshot(stored);
      Prune(snapshot.capturedAt);
    }

    method Find(channelId: int, reference: Option<int>, now: int, user: Option<int>) returns (found: Option<Snapshot>)
      requires Valid()
      modifies this
      ensures Valid() && snapshots == Pruned(old(snapshots), maxEntries, now - maxAge)
      ensures found == Found(snapshots, channelId, reference, user)
    {
      Prune(now);
      if reference.Some? {
        assert IndexedAt(snapshots, byMessageId, reference.value);
        if reference.value !in byMessageId || byMessageId[reference.value].channelId != channelId {
          return None;
        }
        return Some(byMessageId[reference.value]);
      }
      var k := |snapshots|;
      assert snapshots[..k] == snapshots;
      while k > 0
        invariant 0 <= k <= |snapshots|
        invariant NewestIn(snapshots, channelId, user) == NewestIn(snapshots[..k], channelId, user)
      {
        k := k - 1;
        assert snapshots[..k + 1][..k] == snapshots[..k];
        var s := snapshots[k];
        if s.channelId == channelId && (user.None? || s.sourceUserId == user.value) {
          return Some(s);
        }
      }
      assert snapshots[..k] == [];
      found := None;
    }
  }

  // ---------------------------------------------------------------------
  // What a search means
  // ---------------------------------------------------------------------

  predicate Matches(s: Snapshot, channelId: int, reference: Option<int>, user: Option<int>) {
    if reference.Some? then reference.value in s.botMessageIds
    else s.channelId == channelId && (user.None? || s.sourceUserId == user.value)
  }

  /** The newest snapshot that matches stands at `k`. */
  ghost predicate NewestAt(snapshots: seq<Snapshot>, k: nat, channelId: int, reference: Option<int>,
                           user: Option<int>) {
    && k < |snapshots| && Matches(snapshots[k], channelId, reference, user)
    && forall j :: k < j < |snapshots| ==> !Matches(snapshots[j], channelId, reference, user)
  }

  /** The newest match is found, unless a referenced message belongs to another channel: then nothing is. */
  lemma {:induction false} FoundIsNewestMatch(snapshots: seq<Snapshot>, k: nat, channelId: int, reference: Option<int>,
                                              user: Option<int>)
    requires NewestAt(snapshots, k, channelId, reference, user)
    ensures Found(snapshots, channelId, reference, user)
         == if snapshots[k].channelId == channelId then Some(snapshots[k]) else None
  {
    if k < |snapshots| - 1 {
      assert !Matches(snapshots[|snapshots| - 1], channelId, reference, user);
      FoundIsNewestMatch(snapshots[..|snapshots| - 1], k, channelId, reference, user);
    }
  }

  lemma {:induction false} NothingFound(snapshots: seq<Snapshot>, channelId: int, reference: Option<int>,
                                        user: Option<int>)
    requires forall k :: 0 <= k < |snapshots| ==> !Matches(snapshots[k], channelId, reference, user)
    ensures Found(snapshots, channelId, reference, user) == None
  {
    if snapshots != [] {
      NothingFound(snapshots[..|snapshots| - 1], channelId, reference, user);
    }
  }

  // ---------------------------------------------------------------------
  // Runs
  // ---------------------------------------------------------------------

  /** A recorded snapshot, or the prune at the start of a search. */
  datatype Event = Recorded(snapshot: Snapshot) | Searched(now: int)

  function After(maxEntries: nat, maxAge: int, events: seq<Event>): seq<Snapshot> {
    if events == [] then []
    else
      var before := After(maxEntries, maxAge, events[..|events| - 1]);
      match events[|events| - 1]
      case Recorded(s) => Pruned(before + [s], maxEntries, s.capturedAt - maxAge)
      case Searched(now) => Pruned(before, maxEntries, now - maxAge)
  }

  /** Everything ever recorded. */
  function Log(events: seq<Event>): seq<Snapshot> {
    if events == [] then []
    else
      var front := Log(events[..|events| - 1]);
      match events[|events| - 1]
      case Recorded(s) => front + [s]
      case Searched(_) => front
  }

  function CutoffOf(maxAge: int, e: Event): int {
    match e
    case Recorded(s) => s.capturedAt - maxAge
    case Searched(now) => now - maxAge
  }

  /** The largest cutoff that any event so far pruned with. */
  function LargestCutoff(maxAge: int, events: seq<Event>): int
    requires events != []
  {
    var last := CutoffOf(maxAge, events[|events| - 1]);
    if |events| == 1 then last else Max(LargestCutoff(maxAge, events[..|events| - 1]), last)
  }

  /** The last `maxEntries` of the log, cut by the largest cutoff. */
  function CutLog(maxEntries: nat, maxAge: int, events: seq<Event>): seq<Snapshot> {
    if events == [] then [] else Pruned(Log(events), maxEntries, LargestCutoff(maxAge, events))
  }

  predicate InTimeOrder(snapshots: seq<Snapshot>) {
    forall i, j :: 0 <= i < j < |snapshots| ==> snapshots[i].capturedAt <= snapshots[j].capturedAt
  }

  /** Nothing is recorded that an earlier prune would already have cut. */
  predicate Timely(maxAge: int, events: seq<Event>) {
    forall k :: 0 < k < |events| ==> TimelyAt(maxAge, events, k)
  }

  predicate TimelyAt(maxAge: int, events: seq<Event>, k: nat)
    requires 0 < k < |events|
  {
    events[k].Recorded? ==> events[k].snapshot.capturedAt >= LargestCutoff(maxAge, events[..k])
  }

  lemma {:induction false} SinceTwice(snapshots: seq<Snapshot>, a: int, b: int)
    ensures Since(Since(snapshots, a), b) == Since(snapshots, Max(a, b))
  {
    if snapshots != [] {
      var front, last := snapshots[..|snapshots| - 1], snapshots[|snapshots| - 1];
      SinceTwice(front, a, b);
    }
  }

  lemma {:induction false} SinceAll(snapshots: seq<Snapshot>, cutoff: int)
    requires forall i :: 0 <= i < |snapshots| ==> snapshots[i].capturedAt >= cutoff
    ensures Since(snapshots, cutoff) == snapshots
  {
    if snapshots != [] {
      SinceAll(snapshots[..|snapshots| - 1], cutoff);
    }
  }

  lemma {:induction false} SinceShrinks(snapshots: seq<Snapshot>, cutoff: int)
    ensures |Since(snapshots, cutoff)| <= |snapshots|
    ensures forall s :: s in Since(snapshots, cutoff) ==> s in snapshots && s.capturedAt >= cutoff
  {
    if snapshots != [] {
      SinceShrinks(snapshots[..|snapshots| - 1], cutoff);
    }
  }

  lemma {:induction false} SinceDropsFirst(a: Snapshot, rest: seq<Snapshot>, cutoff: int)
    requires a.capturedAt < cutoff
    ensures Since([a] + rest, cutoff) == Since(rest, cutoff)
  {
    if rest == [] {
      assert [a] + rest == [a];
      assert [a][..0] == [];
    } else {
      var front, last := rest[..|rest| - 1], rest[|rest| - 1];
      SinceDropsFirst(a, front, cutoff);
      assert ([a] + rest)[..|rest|] == [a] + front;
    }
  }

  /** Recording into the cut log: the window of the log moves by one. */
  lemma RecordedWindow(log: seq<Snapshot>, maxEntries: nat, cutoff: int, s: Snapshot)
    requires maxEntries >= 1 && InTimeOrder(log + [s]) && s.capturedAt >= cutoff
    ensures LastN(Pruned(log, maxEntries, cutoff) + [s], maxEntries) == Since(LastN(log + [s], maxEntries), cutoff)
  {
    if |log| < maxEntries {
      SinceShrinks(log, cutoff);
    } else {
      var window := LastN(log, maxEntries);
      FullLogWindow(log, maxEntries, s);
      WindowMoves(window[0], window[1..], maxEntries, cutoff, s);
    }
  }

  lemma FullLogWindow(log: seq<Snapshot>, maxEntries: nat, s: Snapshot)
    requires 1 <= maxEntries <= |log| && InTimeOrder(log + [s])
    ensures var window := LastN(log, maxEntries);
            && window == [window[0]] + window[1..] && LastN(log + [s], maxEntries) == window[1..] + [s]
            && forall i :: 0 <= i < |window[1..]| ==> window[0].capturedAt <= window[1..][i].capturedAt
  {
    var all, window := log + [s], LastN(log, maxEntries);
    assert forall i :: 0 <= i < |window| ==> window[i] == all[|log| - maxEntries + i];
  }

  lemma WindowMoves(a: Snapshot, rest: seq<Snapshot>, maxEntries: nat, cutoff: int, s: Snapshot)
    requires |rest| + 1 == maxEntries && s.capturedAt >= cutoff
    requires forall i :: 0 <= i < |rest| ==> a.capturedAt <= rest[i].capturedAt
    ensures LastN(Since([a] + rest, cutoff) + [s], maxEntries) == Since(rest + [s], cutoff)
  {
    if a.capturedAt < cutoff {
      SinceDropsFirst(a, rest, cutoff);
      SinceShrinks(rest, cutoff);
    } else {
      FullWindow(a, rest, s, maxEntries, cutoff);
    }
  }

  lemma FullWindow(a: Snapshot, rest: seq<Snapshot>, s: Snapshot, maxEntries: nat, cutoff: int)
    requires |rest| + 1 == maxEntries && a.capturedAt >= cutoff
    requires forall i :: 0 <= i < |rest| ==> rest[i].capturedAt >= cutoff
    ensures LastN(Since([a] + rest, cutoff) + [s], maxEntries) == Since(rest, cutoff) + [s]
  {
    SinceAll([a] + rest, cutoff);
    SinceAll(rest, cutoff);
  }

  lemma PrefixTimely(maxAge: int, events: seq<Event>, n: nat)
    requires Timely(maxAge, events) && n <= |events|
    ensures Timely(maxAge, events[..n])
  {
    forall k | 0 < k < n ensures TimelyAt(maxAge, events[..n], k) {
      assert TimelyAt(maxAge, events, k);
      assert events[..n][..k] == events[..k];
    }
  }

  lemma LogPrefixInOrder(events: seq<Event>)
    requires events != [] && InTimeOrder(Log(events))
    ensures InTimeOrder(Log(events[..|events| - 1]))
  {
    var front := Log(events[..|events| - 1]);
    if events[|events| - 1].Recorded? {
      assert forall i :: 0 <= i < |front| ==> Log(events)[i] == front[i];
    }
  }

  /** One event keeps the cache equal to the cut log. */
  lemma CutLogStep(maxEntries: nat, maxAge: int, events: seq<Event>)
    requires maxEntries >= 1 && events != [] && InTimeOrder(Log(events)) && Timely(maxAge, events)
    requires After(maxEntries, maxAge, events[..|events| - 1]) == CutLog(maxEntries, maxAge, events[..|events| - 1])
    ensures After(maxEntries, maxAge, events) == CutLog(maxEntries, maxAge, events)
  {
    var front, e := events[..|events| - 1], events[|events| - 1];
    var cutoff := CutoffOf(maxAge, e);
    if front == [] {
      assert Log(front) == [];
    } else {
      var largest := LargestCutoff(maxAge, front);
      SinceShrinks(LastN(Log(front), maxEntries), largest);
      match e {
        case Searched(now) =>
          SinceTwice(LastN(Log(front), maxEntries), largest, cutoff);
        case Recorded(s) =>
          assert TimelyAt(maxAge, events, |events| - 1);
          RecordedWindow(Log(front), maxEntries, largest, s);
          SinceTwice(LastN(Log(events), maxEntries), largest, cutoff);
      }
    }
  }

  /** Captured in time order and never behind an earlier cutoff: the cache is the cut log. */
  lemma {:induction false} CacheIsCutLog(maxEntries: nat, maxAge: int, events: seq<Event>)
    requires maxEntries >= 1 && InTimeOrder(Log(events)) && Timely(maxAge, events)
    ensures After(maxEntries, maxAge, events) == CutLog(maxEntries, maxAge, events)
  {
    if events != [] {
      PrefixTimely(maxAge, events, |events| - 1);
      LogPrefixInOrder(events);
      CacheIsCutLog(maxEntries, maxAge, events[..|events| - 1]);
      CutLogStep(maxEntries, maxAge, events);
    }
  }

  lemma {:induction false} LogOfPrefixInOrder(events: seq<Event>, n: nat)
    requires n <= |events| && InTimeOrder(Log(events))
    ensures InTimeOrder(Log(events[..n]))
  {
    if n < |events| {
      LogPrefixInOrder(events);
      LogOfPrefixInOrder(events[..|events| - 1], n);
      assert events[..|events| - 1][..n] == events[..n];
    } else {
      assert events[..n] == events;
    }
  }

  /** A snapshot recorded behind an earlier cutoff stays in the cache although the cut log leaves it out. */
  lemma LateRecordingBreaks(maxEntries: nat, maxAge: int, events: seq<Event>, k: nat)
    requires maxEntries >= 1 && maxAge >= 0 && 0 < k < |events| && !TimelyAt(maxAge, events, k)
    ensures After(maxEntries, maxAge, events[..k + 1]) != CutLog(maxEntries, maxAge, events[..k + 1])
  {
    var prefix, s := events[..k + 1], events[k].snapshot;
    assert prefix[..k] == events[..k] && prefix[k] == events[k];
    assert s in After(maxEntries, maxAge, prefix);
    SinceShrinks(LastN(Log(prefix), maxEntries), LargestCutoff(maxAge, prefix));
  }

  /** With captures in time order, the cache is the cut log throughout a run exactly when every recording is timely. */
  lemma CacheIsCutLogIff(maxEntries: nat, maxAge: int, events: seq<Event>)
    requires maxEntries >= 1 && maxAge >= 0 && InTimeOrder(Log(events))
    ensures Timely(maxAge, events)
            <==> forall n :: 0 <= n <= |events| ==>
              After(maxEntries, maxAge, events[..n]) == CutLog(maxEntries, maxAge, events[..n])
  {
    if Timely(maxAge, events) {
      forall n | 0 <= n <= |events|
        ensures After(maxEntries, maxAge, events[..n]) == CutLog(maxEntries, maxAge, events[..n])
      {
        PrefixTimely(maxAge, events, n);
        LogOfPrefixInOrder(events, n);
        CacheIsCutLog(maxEntries, maxAge, events[..n]);
      }
    } else {
      var k :| 0 < k < |events| && !TimelyAt(maxAge, events, k);
      LateRecordingBreaks(maxEntries, maxAge, events, k);
    }
  }
}
