/** A single-consumer queue with bounded, nonblocking submission: `BoundedBackgroundWorker`. */
module BackgroundWorker {
  import opened Wrappers

  datatype Task = NoTask | Live | Done

  /** The worker between two suspension points. The last six components only record what happened. */
  datatype State<Job> = State(
    queue: seq<Job>, unfinished: int, hand: Option<Job>, active: bool, task: Task, closed: bool,
    accepted: seq<Job>, delivered: seq<Job>, discarded: seq<Job>, finished: nat, failed: nat, cancelled: nat)

  /** The stretches of code that run without suspension. */
  datatype Action<Job> =
    | Start
    | Submit(job: Job)
    | Take        // the consumer's `queue.get` returns
    | Finish      // the handler returns
    | Fail        // the handler raises an Exception, which is logged
    | Crash       // the handler raises something else, which ends the task
    | Interrupt   // the cancellation requested by `close` reaches the task
    | BeginClose  // `close` up to its first await
    | EndClose    // `close` after the task has ended

  predicate Enabled<Job>(s: State<Job>, a: Action<Job>) {
    match a
    case Start => true
    case Submit(_) => true
    case Take => s.task == Live && s.hand.None? && s.queue != []
    case Finish => s.task == Live && s.hand.Some?
    case Fail => s.task == Live && s.hand.Some?
    case Crash => s.task == Live && s.hand.Some?
    case Interrupt => s.task == Live && s.closed
    case BeginClose => true
    case EndClose => s.closed && s.task != Live
  }

  function Initial<Job>(): State<Job> {
    State([], 0, None, false, NoTask, false, [], [], [], 0, 0, 0)
  }

  /** `start`: creates the task unless one is running; refuses after `close`. */
  function Started<Job>(s: State<Job>): (State<Job>, bool) {
    if s.closed then (s, false)
    else (if s.task == Live then s else s.(task := Live), true)
  }

  function Submitted<Job>(s: State<Job>, job: Job, maxsize: nat): (State<Job>, bool) {
    var (t, ok) := Started(s);
    if !ok || |t.queue| >= maxsize then (t, false)
    else (t.(queue := t.queue + [job], unfinished := t.unfinished + 1, accepted := t.accepted + [job]), true)
  }

  /** The `finally` block of the consumer. */
  function PutDown<Job>(s: State<Job>): State<Job> {
    s.(hand := None, active := false, unfinished := s.unfinished - 1)
  }

  function Step<Job>(maxsize: nat, s: State<Job>, a: Action<Job>): (State<Job>, bool)
    requires Enabled(s, a)
  {
    match a
    case Start => Started(s)
    case Submit(job) => Submitted(s, job, maxsize)
    case Take =>
      (s.(queue := s.queue[1..], hand := Some(s.queue[0]), active := true, delivered := s.delivered + [s.queue[0]]),
       true)
    case Finish => (PutDown(s).(finished := s.finished + 1), true)
    case Fail => (PutDown(s).(failed := s.failed + 1), true)
    case Crash => (PutDown(s).(failed := s.failed + 1, task := Done), true)
    case Interrupt =>
      (if s.hand.Some? then PutDown(s).(cancelled := s.cancelled + 1, task := Done) else s.(task := Done), true)
    case BeginClose => (s.(closed := true), true)
    case EndClose =>
      (s.(task := NoTask, queue := [], unfinished := s.unfinished - |s.queue|, discarded := s.discarded + s.queue),
       true)
  }

  // ---------------------------------------------------------------------
  // What every step keeps
  // ---------------------------------------------------------------------

  function InHand<Job>(s: State<Job>): nat {
    if s.hand.Some? then 1 else 0
  }

  ghost predicate Inv<Job>(maxsize: nat, s: State<Job>) {
    // every accepted job is accounted for, in order
    && s.accepted == s.delivered + s.discarded + s.queue
    && |s.delivered| == s.finished + s.failed + s.cancelled + InHand(s)
    && (s.hand.Some? ==> s.delivered != [] && s.delivered[|s.delivered| - 1] == s.hand.value)
    // the queue's own counter and bound
    && s.unfinished == |s.queue| + InHand(s)
    && |s.queue| <= maxsize
    // the task
    && (s.active <==> s.hand.Some?)
    && (s.hand.Some? ==> s.task == Live)
    && (s.task == NoTask ==> s.queue == [])
    && (s.discarded != [] ==> s.closed && s.task == NoTask)
  }

  lemma InitialInv<Job>(maxsize: nat)
    ensures Inv(maxsize, Initial<Job>())
  {
  }

  lemma TakeKeepsInv<Job>(maxsize: nat, s: State<Job>)
    requires Inv(maxsize, s) && Enabled(s, Take)
    ensures Inv(maxsize, Step(maxsize, s, Take).0)
  {
    assert s.discarded == [];
    assert s.queue == [s.queue[0]] + s.queue[1..];
    assert s.delivered + [] + s.queue == (s.delivered + [s.queue[0]]) + [] + s.queue[1..];
  }

  lemma SubmitKeepsInv<Job>(maxsize: nat, s: State<Job>, job: Job)
    requires Inv(maxsize, s)
    ensures Inv(maxsize, Submitted(s, job, maxsize).0)
  {
    if !s.closed {
      assert s.discarded == [];
      assert s.delivered + [] + (s.queue + [job]) == s.delivered + [] + s.queue + [job];
    }
  }

  lemma EndCloseKeepsInv<Job>(maxsize: nat, s: State<Job>)
    requires Inv(maxsize, s) && Enabled(s, EndClose)
    ensures Inv(maxsize, Step(maxsize, s, EndClose).0)
  {
    assert s.delivered + (s.discarded + s.queue) + [] == s.delivered + s.discarded + s.queue;
  }

  /** Conservation holds after every step, whatever the interleaving. */
  lemma StepKeepsInv<Job>(maxsize: nat, s: State<Job>, a: Action<Job>)
    requires Inv(maxsize, s) && Enabled(s, a)
    ensures Inv(maxsize, Step(maxsize, s, a).0)
  {
    match a
    case Submit(job) => SubmitKeepsInv(maxsize, s, job);
    case Take => TakeKeepsInv(maxsize, s);
    case EndClose => EndCloseKeepsInv(maxsize, s);
    case _ =>
  }

  /** Once closed, a worker stays closed, accepts nothing, and its queue only shrinks. */
  lemma ClosedStays<Job>(maxsize: nat, s: State<Job>, a: Action<Job>)
    requires s.closed && Enabled(s, a) && (s.task == NoTask ==> s.queue == [])
    ensures var (t, ok) := Step(maxsize, s, a);
            && t.closed && t.accepted == s.accepted
            && (a.Submit? || a.Start? ==> !ok && t == s)
            && (s.task == NoTask ==>
                t.task == NoTask && t.queue == s.queue && t.unfinished == s.unfinished && t.delivered == s.delivered)
  {
  }

  // ---------------------------------------------------------------------
  // The object
  // ---------------------------------------------------------------------

  class BoundedBackgroundWorker<Job(0)> {
    const maxsize: nat
    var queue: seq<Job>
    var unfinished: int
    var hand: Option<Job>
    var active: bool
    var task: Task
    var closed: bool
    ghost var accepted: seq<Job>
    ghost var delivered: seq<Job>
    ghost var discarded: seq<Job>
    ghost var finished: nat
    ghost var failed: nat
    ghost var cancelled: nat

    ghost function Contents(): State<Job>
      reads this
    {
      State(queue, unfinished, hand, active, task, closed, accepted, delivered, discarded, finished, failed, cancelled)
    }

    constructor (maxsize: int)
      ensures this.maxsize == (if maxsize > 1 then maxsize else 1) && Contents() == Initial<Job>()
      ensures Inv(this.maxsize, Contents())
    {
      this.maxsize := if maxsize > 1 then maxsize else 1;
      queue, unfinished, hand, active, task, closed := [], 0, None, false, NoTask, false;
      accepted, delivered, discarded, finished, failed, cancelled := [], [], [], 0, 0, 0;
    }

    method Start() returns (ok: bool)
      modifies this`task
      ensures (Contents(), ok) == Step(maxsize, old(Contents()), Action.Start)
    {
      if closed {
        return false;
      }
      if task != Live {
        task := Live;
      }
      return true;
    }

    method Submit(job: Job) returns (ok: bool)
      modifies this
      ensures (Contents(), ok) == Step(maxsize, old(Contents()), Action.Submit(job))
    {
      ok := Start();
      if !ok {
        return false;
      }
      if |queue| >= maxsize {
        return false;
      }
      queue, unfinished, accepted := queue + [job], unfinished + 1, accepted + [job];
    }

    /** The consumer between `queue.get` and the handler call. */
    method Take()
      requires Enabled(Contents(), Action.Take)
      modifies this
      ensures Contents() == Step(maxsize, old(Contents()), Action.Take).0
    {
      hand := Some(queue[0]);
      delivered := delivered + [queue[0]];
      queue := queue[1..];
      active := true;
    }

    /** The consumer from the handler's end to the next `queue.get`; `a` is how the handler ended. */
    method Settle(a: Action<Job>)
      requires a.Finish? || a.Fail? || a.Crash? || (a.Interrupt? && hand.Some?)
      requires Enabled(Contents(), a)
      modifies this
      ensures Contents() == Step(maxsize, old(Contents()), a).0
    {
      match a {
        case Finish => finished := finished + 1;
        case Fail => failed := failed + 1;
        case Crash => failed, task := failed + 1, Done;
        case Interrupt => cancelled, task := cancelled + 1, Done;
      }
      hand := None;
      active := false;
      unfinished := unfinished - 1;
    }

    method BeginClose() returns (hasTask: bool)
      modifies this`closed
      ensures Contents() == Step(maxsize, old(Contents()), Action.BeginClose).0
      ensures hasTask <==> task != NoTask
    {
      closed := true;
      hasTask := task != NoTask;
    }

    /** The end of `close`: forgets the task and empties the queue one job at a time. */
    method EndClose()
      requires Enabled(Contents(), Action.EndClose)
      modifies this
      ensures Contents() == Step(maxsize, old(Contents()), Action.EndClose).0
    {
      task := NoTask;
      while queue != []
        invariant |queue| <= |old(queue)| && queue == old(queue)[|old(queue)| - |queue|..]
        invariant discarded == old(discarded) + old(queue)[..|old(queue)| - |queue|]
        invariant unfinished == old(unfinished) - (|old(queue)| - |queue|)
        invariant task == NoTask && hand == old(hand) && active == old(active) && closed == old(closed)
        invariant accepted == old(accepted) && delivered == old(delivered)
        invariant finished == old(finished) && failed == old(failed) && cancelled == old(cancelled)
        decreases |queue|
      {
        discarded := discarded + [queue[0]];
        queue := queue[1..];
        unfinished := unfinished - 1;
      }
      assert old(queue)[..|old(queue)|] == old(queue);
    }
  }

  // ---------------------------------------------------------------------
  // Whole runs
  // ---------------------------------------------------------------------

  datatype Run<Job> = Run(states: seq<State<Job>>, actions: seq<Action<Job>>, results: seq<bool>)

  ghost predicate Shaped<Job>(run: Run<Job>) {
    |run.states| == |run.actions| + 1 && |run.results| == |run.actions| && run.states[0] == Initial<Job>()
  }

  ghost predicate StepOk<Job>(maxsize: nat, run: Run<Job>, k: nat)
    requires Shaped(run) && k < |run.actions|
  {
    && Enabled(run.states[k], run.actions[k])
    && Step(maxsize, run.states[k], run.actions[k]) == (run.states[k + 1], run.results[k])
  }

  /** Any interleaving of submitters, the consumer and closers. */
  ghost predicate IsRun<Job>(maxsize: nat, run: Run<Job>) {
    Shaped(run) && forall k :: 0 <= k < |run.actions| ==> StepOk(maxsize, run, k)
  }

  /** Conservation at every point of every run. */
  lemma {:induction false} RunKeepsInv<Job>(maxsize: nat, run: Run<Job>, n: nat)
    requires IsRun(maxsize, run) && n <= |run.actions|
    ensures Inv(maxsize, run.states[n])
  {
    if n == 0 {
      InitialInv<Job>(maxsize);
    } else {
      RunKeepsInv(maxsize, run, n - 1);
      assert StepOk(maxsize, run, n - 1);
      StepKeepsInv(maxsize, run.states[n - 1], run.actions[n - 1]);
    }
  }

  /** The jobs whose submission was accepted before step `n`, in order. */
  function AcceptedBefore<Job>(run: Run<Job>, n: nat): seq<Job>
    requires n <= |run.actions| && |run.results| == |run.actions|
  {
    if n == 0 then []
    else AcceptedBefore(run, n - 1)
         + (if run.actions[n - 1].Submit? && run.results[n - 1] then [run.actions[n - 1].job] else [])
  }

  lemma AcceptedStep<Job>(maxsize: nat, s: State<Job>, a: Action<Job>)
    requires Enabled(s, a)
    ensures var (t, ok) := Step(maxsize, s, a);
            t.accepted == s.accepted + (if a.Submit? && ok then [a.job] else [])
    ensures s.delivered <= Step(maxsize, s, a).0.delivered
  {
  }

  /** The handler sees jobs in submission order, each at most once: what it got is a prefix of what was accepted. */
  lemma {:induction false} DeliveredInOrder<Job>(maxsize: nat, run: Run<Job>, n: nat)
    requires IsRun(maxsize, run) && n <= |run.actions|
    ensures run.states[n].accepted == AcceptedBefore(run, n)
    ensures run.states[n].delivered <= AcceptedBefore(run, n)
    ensures n > 0 ==> run.states[n - 1].delivered <= run.states[n].delivered
  {
    RunKeepsInv(maxsize, run, n);
    if n > 0 {
      DeliveredInOrder(maxsize, run, n - 1);
      assert StepOk(maxsize, run, n - 1);
      AcceptedStep(maxsize, run.states[n - 1], run.actions[n - 1]);
    }
  }

  ghost predicate Closing<Job>(run: Run<Job>, i: nat, n: nat)
    requires Shaped(run) && i < n <= |run.actions|
  {
    run.states[n].closed
    && forall k :: i < k < n && (run.actions[k].Submit? || run.actions[k].Start?) ==> !run.results[k]
  }

  /** From the start of `close` on, every submission is refused. */
  lemma {:induction false} NothingAcceptedAfterClose<Job>(maxsize: nat, run: Run<Job>, i: nat, n: nat)
    requires IsRun(maxsize, run) && i < n <= |run.actions| && run.actions[i].BeginClose?
    ensures Closing(run, i, n)
  {
    assert StepOk(maxsize, run, n - 1);
    if i < n - 1 {
      NothingAcceptedAfterClose(maxsize, run, i, n - 1);
      RunKeepsInv(maxsize, run, n - 1);
      ClosedStays(maxsize, run.states[n - 1], run.actions[n - 1]);
    }
  }

  ghost predicate Settled<Job>(s: State<Job>) {
    s.closed && s.task == NoTask && s.queue == [] && s.hand.None? && s.unfinished == 0 && !s.active
  }

  /** When `close` is over (or found no task), the queue is empty and `join` is released, for good. */
  lemma {:induction false} ClosedIsSettled<Job>(maxsize: nat, run: Run<Job>, i: nat, n: nat)
    requires IsRun(maxsize, run) && i < n <= |run.actions|
    requires run.actions[i].EndClose? || (run.actions[i].BeginClose? && run.states[i].task == NoTask)
    ensures Settled(run.states[n])
    ensures var s := run.states[n];
            s.accepted == s.delivered + s.discarded
              && |s.accepted| == s.finished + s.failed + s.cancelled + |s.discarded|
  {
    RunKeepsInv(maxsize, run, n);
    RunKeepsInv(maxsize, run, n - 1);
    assert StepOk(maxsize, run, n - 1);
    if i < n - 1 {
      ClosedIsSettled(maxsize, run, i, n - 1);
      ClosedStays(maxsize, run.states[n - 1], run.actions[n - 1]);
    }
  }
}
