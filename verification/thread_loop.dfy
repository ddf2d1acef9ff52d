/** The worker loop `run` that `StartThreadCommand.execute` starts
    (thread/commands.py), with the thread replaced by an explicit state and
    a step function: the queue, the two stop flags held on the command
    object, the worker's current-scope slot, and the trace of what the
    worker did.

    A blocking `q.get()` on an empty queue is the `Waiting` status, not the
    end of the loop. What the queued commands do is abstracted to the
    handful of behaviours that matter to the loop. */
module ThreadLoop {
  import opened Errors

  /** What a queued command does when executed. */
  datatype Action =
    /** A command that returns normally; `tag` identifies it in the trace. */
    | Succeed(tag: nat)
    /** A command whose `execute` raises. */
    | Raise(tag: nat)
    /** `LambdaCommand(self.hard_stop)`, as resolved from 'Thread.HardStop'. */
    | HardStopCmd
    /** `LambdaCommand(self.soft_stop)`, as resolved from 'Thread.SoftStop'. */
    | SoftStopCmd

  datatype Job =
    /** A command put with 'Thread.Put'. */
    | Once(action: Action)
    /** `ThreadRepeatedCommand(cmd)`, put with 'Thread.PutWithRepeat'. */
    | Repeat(action: Action)
    /** A 'Scopes.Current.Set' command for the scope with id `id`. */
    | SwitchScope(id: string)

  /** What the worker did, in order: a command returned while the worker's
      slot named `scope`; a command raised and the failure went to the
      exception handler; or the failure could not be handled and was only
      printed. */
  datatype Event = Ran(tag: nat, scope: Option<string>) | Handled(job: Job, error: Error) | Unhandled(job: Job)

  /** How `IoC.resolve('ExceptionHandler').handle(cmd, e)` behaves for this
      worker: it handles, the key is unknown, or `handle` itself raises. */
  datatype Handler = Handles | Missing | Raises

  datatype Status = Running | Waiting | Stopped

  /** The worker of the thread with id `id`: its queue, the `_hard_stop`
      and `_soft_stop` fields, the id its current-scope slot names (None
      until the first command), its status and its trace. */
  datatype Worker = Worker(id: string, handler: Handler, queue: seq<Job>, hard: bool, soft: bool,
                           scope: Option<string>, status: Status, trace: seq<Event>)

  /** A worker as the thread starts it: empty queue, no flag set. */
  function Start(id: string, handler: Handler): (w: Worker)
    ensures w.queue == [] && !w.hard && !w.soft && w.status == Running && w.trace == []
  {
    Worker(id, handler, [], false, false, None, Running, [])
  }

  /** 'Thread.Put' (and 'Thread.PutWithRepeat'): another thread appends a
      command to the queue; nothing else changes. */
  function Put(w: Worker, j: Job): (r: Worker)
    ensures r.queue == w.queue + [j] && r == w.(queue := r.queue)
  {
    w.(queue := w.queue + [j])
  }

  /** Executing one action: only the flag commands touch the flags, and only
      to set them. */
  function Act(a: Action, w: Worker): (r: (Worker, Outcome))
    ensures r.1.Failed? <==> a.Raise?
    ensures a.Raise? ==> r.1 == Failed(Raised(a.tag))
    ensures r.0.queue == w.queue && r.0.scope == w.scope && r.0.status == w.status
    ensures r.0.id == w.id && r.0.handler == w.handler
    ensures r.0.hard == (w.hard || a.HardStopCmd?) && r.0.soft == (w.soft || a.SoftStopCmd?)
    ensures r.0.trace == w.trace + (if a.Succeed? then [Ran(a.tag, w.scope)] else [])
  {
    match a
    case Succeed(t) => (w.(trace := w.trace + [Ran(t, w.scope)]), Done)
    case Raise(t) => (w, Failed(Raised(t)))
    case HardStopCmd => (w.(hard := true), Done)
    case SoftStopCmd => (w.(soft := true), Done)
  }

  /** `cmd.execute()` for a dequeued job. A repeated command puts itself back
      at the end of the queue only once its inner command returned. */
  function ExecJob(j: Job, w: Worker): (r: (Worker, Outcome))
    ensures j.Repeat? && r.1.Done? ==> r.0.queue == w.queue + [j]
    ensures !(j.Repeat? && r.1.Done?) ==> r.0.queue == w.queue
    ensures r.1.Failed? <==> !j.SwitchScope? && j.action.Raise?
    ensures r.0.id == w.id && r.0.handler == w.handler && r.0.status == w.status
    ensures r.0.scope == if j.SwitchScope? then Some(j.id) else w.scope
    ensures w.hard ==> r.0.hard
    ensures w.soft ==> r.0.soft
    ensures r.0.trace == w.trace + (if !j.SwitchScope? && j.action.Succeed? then [Ran(j.action.tag, w.scope)] else [])
  {
    match j
    case Once(a) => Act(a, w)
    case Repeat(a) =>
      var (w1, o) := Act(a, w);
      if o.Done? then (w1.(queue := w1.queue + [j]), Done) else (w1, o)
    case SwitchScope(id) => (w.(scope := Some(id)), Done)
  }

  /** One pass of the loop body after a job was taken from the queue: the
      slot is re-set to the thread's own scope, the job runs, and a failure
      goes to the exception handler; a failure of the handler is printed
      and the loop goes on regardless. */
  function Dispatch(w: Worker, j: Job): (r: Worker)
    ensures r.status == Running && r.id == w.id && r.handler == w.handler
    ensures w.hard ==> r.hard
    ensures w.soft ==> r.soft
    ensures |w.trace| < |r.trace| || !(j.Once? || j.Repeat?) || j.action.HardStopCmd? || j.action.SoftStopCmd?
    ensures w.trace <= r.trace
    ensures forall i :: |w.trace| <= i < |r.trace| && r.trace[i].Ran? ==> r.trace[i].scope == Some(w.id)
  {
    var (w1, o) := ExecJob(j, w.(scope := Some(w.id), status := Running));
    match o
    case Done => w1
    case Failed(e) => w1.(trace := w1.trace + [if w.handler == Handles then Handled(j, e) else Unhandled(j)])
  }

  /** One iteration of `run`. A stopped worker stays stopped. A running one
      checks the hard flag first and stops at once; with the soft flag it
      takes a job without blocking and stops when there is none; otherwise
      it blocks, which is `Waiting` while the queue is empty. A waiting
      worker takes the next job that arrives without looking at the flags
      again, since `q.get()` returns straight into the loop body. */
  function Step(w: Worker): (r: Worker)
    ensures r.id == w.id && r.handler == w.handler
    ensures w.hard ==> r.hard
    ensures w.soft ==> r.soft
    ensures w.trace <= r.trace
    ensures forall i :: |w.trace| <= i < |r.trace| && r.trace[i].Ran? ==> r.trace[i].scope == Some(w.id)
    ensures w.status.Stopped? ==> r == w
    ensures w.status.Running? && w.hard ==> r == w.(status := Stopped)
    ensures r.status.Stopped? <==>
              w.status.Stopped? || (w.status.Running? && (w.hard || (w.soft && |w.queue| == 0)))
    ensures r.status.Waiting? <==>
              (w.status.Waiting? && |w.queue| == 0) || (w.status.Running? && !w.hard && !w.soft && |w.queue| == 0)
    ensures r.status.Running? ==> |w.queue| > 0 && r == Dispatch(w.(queue := w.queue[1..]), w.queue[0])
  {
    match w.status
    case Stopped => w
    case Waiting =>
      if |w.queue| == 0 then w else Dispatch(w.(queue := w.queue[1..]), w.queue[0])
    case Running =>
      if w.hard then w.(status := Stopped)
      else if w.soft then
        if |w.queue| == 0 then w.(status := Stopped) else Dispatch(w.(queue := w.queue[1..]), w.queue[0])
      else if |w.queue| == 0 then w.(status := Waiting)
      else Dispatch(w.(queue := w.queue[1..]), w.queue[0])
  }

  /** `n` iterations of the loop, with no producer in between. */
  function Run(w: Worker, n: nat): Worker
    decreases n
  {
    if n == 0 then w else Run(Step(w), n - 1)
  }

  /** A command that runs or raises once and touches neither flag. */
  predicate Plain(j: Job) {
    j.Once? && (j.action.Succeed? || j.action.Raise?)
  }

  /** The events a plain command leaves when the worker of thread `id`
      executes it: it runs in the thread's scope, and a failure is handled
      or printed. */
  function Events(jobs: seq<Job>, id: string, h: Handler): seq<Event>
    decreases |jobs|
  {
    if |jobs| == 0 then [] else JobEvents(jobs[0], id, h) + Events(jobs[1..], id, h)
  }

  /** The events of one plain command (none for any other job). */
  function JobEvents(j: Job, id: string, h: Handler): seq<Event> {
    if !Plain(j) then []
    else if j.action.Succeed? then [Ran(j.action.tag, Some(id))]
    else [if h == Handles then Handled(j, Raised(j.action.tag)) else Unhandled(j)]
  }

  /** Once stopped, the worker never changes again. */
  lemma {:induction false} StoppedStays(w: Worker, n: nat)
    requires w.status.Stopped?
    ensures Run(w, n) == w
    decreases n
  {
    if n > 0 {
      StoppedStays(Step(w), n - 1);
    }
  }

  /** Hard stop is checked before anything else: a running worker whose hard
      flag is set stops at the next check, whatever the soft flag, and the
      commands still queued are never run. */
  lemma {:induction false} HardStopHalts(w: Worker, n: nat)
    requires w.status.Running? && w.hard && n > 0
    ensures Run(w, n) == w.(status := Stopped)
  {
    StoppedStays(Step(w), n - 1);
  }

  /** One iteration of a running worker without the hard flag, with a
      plain command at the head of its queue: the command runs in the
      thread's scope and the flags stay as they were. */
  lemma StepPlain(w: Worker)
    requires w.status.Running? && !w.hard && |w.queue| > 0 && Plain(w.queue[0])
    ensures var s := Step(w);
            && s.status.Running? && s.queue == w.queue[1..] && s.hard == w.hard && s.soft == w.soft
            && s.id == w.id && s.handler == w.handler
            && s.trace == w.trace + JobEvents(w.queue[0], w.id, w.handler)
  {
  }

  /** Plain commands at the head of the queue of a running worker without
      the hard flag are executed one per iteration, in queue order, each in
      the thread's own scope, and a failing one does not stop the worker. */
  lemma {:induction false} RunPlain(w: Worker, pre: seq<Job>, rest: seq<Job>)
    requires w.status.Running? && !w.hard && w.queue == pre + rest
    requires forall i :: 0 <= i < |pre| ==> Plain(pre[i])
    ensures var r := Run(w, |pre|);
            && r.queue == rest && r.status.Running?
            && r.hard == w.hard && r.soft == w.soft && r.id == w.id && r.handler == w.handler
            && r.trace == w.trace + Events(pre, w.id, w.handler)
    decreases |pre|
  {
    if |pre| > 0 {
      assert w.queue[0] == pre[0] && w.queue[1..] == pre[1..] + rest;
      StepPlain(w);
      RunPlain(Step(w), pre[1..], rest);
    }
  }

  /** With the soft flag set, a worker drains the queue without blocking and
      stops once it is empty: every queued plain command runs. */
  lemma {:induction false} SoftStopDrains(w: Worker, n: nat)
    requires w.status.Running? && !w.hard && w.soft
    requires forall i :: 0 <= i < |w.queue| ==> Plain(w.queue[i])
    requires n > |w.queue|
    ensures Run(w, n).status.Stopped? && Run(w, n).queue == []
    ensures Run(w, n).trace == w.trace + Events(w.queue, w.id, w.handler)
  {
    RunPlain(w, w.queue, []);
    assert w.queue == w.queue + [];
    RunSplit(w, |w.queue|, n - |w.queue|);
    var r := Run(w, |w.queue|);
    StoppedStays(Step(r), n - |w.queue| - 1);
  }

  /** Running `a` iterations and then `b` more is running `a + b`. */
  lemma {:induction false} RunSplit(w: Worker, a: nat, b: nat)
    ensures Run(w, a + b) == Run(Run(w, a), b)
    decreases a
  {
    if a > 0 {
      RunSplit(Step(w), a - 1, b);
    }
  }

  /** A hard-stop command queued behind plain commands: those run, the
      worker stops right after the hard stop, and every command queued
      behind it stays unexecuted for good. */
  lemma {:induction false} HardStopCutsQueue(w: Worker, pre: seq<Job>, post: seq<Job>, n: nat)
    requires w.status.Running? && !w.hard && w.queue == pre + [Once(HardStopCmd)] + post
    requires forall i :: 0 <= i < |pre| ==> Plain(pre[i])
    requires n > |pre| + 1
    ensures Run(w, n).status.Stopped? && Run(w, n).queue == post
    ensures Run(w, n).trace == w.trace + Events(pre, w.id, w.handler)
  {
    assert w.queue == pre + ([Once(HardStopCmd)] + post);
    var r, m := Run(w, |pre|), n - |pre|;
    RunPlain(w, pre, [Once(HardStopCmd)] + post);
    RunSplit(w, |pre|, m);
    assert |pre| + m == n;
    assert Run(w, n) == Run(r, m);
    HardStopAtHead(r, post, m);
  }

  /** A running worker whose next job is the hard-stop command executes it
      and stops at the following check, leaving the rest queued. */
  lemma {:induction false} HardStopAtHead(r: Worker, post: seq<Job>, m: nat)
    requires r.status.Running? && !r.hard && r.queue == [Once(HardStopCmd)] + post && m > 1
    ensures Run(r, m).status.Stopped? && Run(r, m).queue == post && Run(r, m).trace == r.trace
  {
    var s := Step(r);
    assert s == Dispatch(r.(queue := post), Once(HardStopCmd));
    assert s.hard && s.status.Running? && s.queue == post && s.trace == r.trace;
    HardStopHalts(s, m - 1);
  }

  /** A soft-stop command queued behind plain commands: everything queued,
      before it and behind it, runs, then the worker stops. */
  lemma {:induction false} SoftStopRunsTheRest(w: Worker, pre: seq<Job>, post: seq<Job>, n: nat)
    requires w.status.Running? && !w.hard && w.queue == pre + [Once(SoftStopCmd)] + post
    requires forall i :: 0 <= i < |pre| ==> Plain(pre[i])
    requires forall i :: 0 <= i < |post| ==> Plain(post[i])
    requires n > |pre| + 1 + |post|
    ensures Run(w, n).status.Stopped? && Run(w, n).queue == []
    ensures Run(w, n).trace == w.trace + Events(pre, w.id, w.handler) + Events(post, w.id, w.handler)
  {
    var rest := [Once(SoftStopCmd)] + post;
    assert w.queue == pre + rest;
    RunPlainThen(w, pre, rest, n);
    SoftStopAtHead(Run(w, |pre|), post, n - |pre|);
  }

  /** Running past a plain prefix: the state after the prefix, then the rest. */
  lemma {:induction false} RunPlainThen(w: Worker, pre: seq<Job>, rest: seq<Job>, n: nat)
    requires w.status.Running? && !w.hard && w.queue == pre + rest && n >= |pre|
    requires forall i :: 0 <= i < |pre| ==> Plain(pre[i])
    ensures var r := Run(w, |pre|);
            && r.status.Running? && !r.hard && r.soft == w.soft && r.queue == rest
            && r.id == w.id && r.handler == w.handler
            && r.trace == w.trace + Events(pre, w.id, w.handler)
            && Run(w, n) == Run(r, n - |pre|)
  {
    RunPlain(w, pre, rest);
    RunSplit(w, |pre|, n - |pre|);
  }

  /** A running worker whose next job is the soft-stop command executes it,
      then drains the plain commands behind it and stops. */
  lemma {:induction false} SoftStopAtHead(r: Worker, post: seq<Job>, m: nat)
    requires r.status.Running? && !r.hard && r.queue == [Once(SoftStopCmd)] + post
    requires forall i :: 0 <= i < |post| ==> Plain(post[i])
    requires m > |post| + 1
    ensures Run(r, m).status.Stopped? && Run(r, m).queue == []
    ensures Run(r, m).trace == r.trace + Events(post, r.id, r.handler)
  {
    var s := Step(r);
    assert s == Dispatch(r.(queue := post), Once(SoftStopCmd));
    assert s.soft && !s.hard && s.status.Running? && s.queue == post && s.trace == r.trace;
    SoftStopDrains(s, m - 1);
  }

  /** A repeated command that keeps succeeding keeps the worker busy: it is
      always the only job in the queue and runs once per iteration, even
      after a soft stop, which waits for an empty queue. */
  lemma {:induction false} RepeatRunsForever(w: Worker, t: nat, k: nat)
    requires w.status.Running? && !w.hard && w.queue == [Repeat(Succeed(t))]
    ensures Run(w, k).queue == [Repeat(Succeed(t))] && Run(w, k).status.Running?
    ensures Run(w, k).trace == w.trace + seq(k, _ => Ran(t, Some(w.id)))
    decreases k
  {
    if k > 0 {
      var s := Step(w);
      assert s.trace == w.trace + [Ran(t, Some(w.id))];
      RepeatRunsForever(s, t, k - 1);
      assert [Ran(t, Some(w.id))] + seq(k - 1, _ => Ran(t, Some(w.id))) == seq(k, _ => Ran(t, Some(w.id)));
    }
  }

  /** A repeated command whose inner command raises is handed to the handler
      and is not put back. */
  lemma RepeatDropsOnFailure(w: Worker, t: nat, rest: seq<Job>)
    requires w.status.Running? && !w.hard && w.queue == [Repeat(Raise(t))] + rest
    ensures Step(w).queue == rest
    ensures Step(w).trace == w.trace + [
              if w.handler == Handles then Handled(Repeat(Raise(t)), Raised(t)) else Unhandled(Repeat(Raise(t)))]
  {
  }

  /** A command that switches the worker's slot elsewhere does not carry over
      to the next command: the loop re-sets the slot to the thread's scope
      before each one. */
  lemma SwitchDoesNotCarryOver(w: Worker, other: string, t: nat)
    requires w.status.Running? && !w.hard && w.queue == [SwitchScope(other), Once(Succeed(t))]
    ensures Run(w, 2).trace == w.trace + [Ran(t, Some(w.id))]
    ensures Run(w, 1).scope == Some(other)
  {
  }

  /** A worker blocked on an empty queue executes the next command put, even
      if its hard flag was set meanwhile by another thread executing the
      hard-stop command; only the check after that command stops it. */
  lemma BlockedGetIgnoresFlags(w: Worker, t: nat)
    requires w.status.Waiting? && w.queue == []
    ensures var s := Step(Put(w.(hard := true), Once(Succeed(t))));
            && s.trace == w.trace + [Ran(t, Some(w.id))]
            && Step(s).status.Stopped?
  {
  }

  /** tests/test_thread.py, hard stop, for the worker of 'thread-id' with
      the commands already queued: the command before the hard stop runs,
      the worker stops, and the command behind it never runs. */
  lemma HardStopScenario(n: nat)
    requires n >= 4
    ensures var w := Start("thread-id", Handles).(queue := [Once(Succeed(1)), Once(HardStopCmd), Once(Succeed(2))]);
            Run(w, n).status.Stopped? && Run(w, n).trace == [Ran(1, Some("thread-id"))]
  {
    var w := Start("thread-id", Handles).(queue := [Once(Succeed(1)), Once(HardStopCmd), Once(Succeed(2))]);
    assert w.queue == [Once(Succeed(1))] + [Once(HardStopCmd)] + [Once(Succeed(2))];
    HardStopCutsQueue(w, [Once(Succeed(1))], [Once(Succeed(2))], n);
    assert Events([Once(Succeed(1))], w.id, w.handler) == [Ran(1, Some("thread-id"))];
  }

  /** tests/test_thread.py, soft stop: the commands on both sides of the
      soft stop run, then the worker stops. */
  lemma SoftStopScenario(n: nat)
    requires n >= 4
    ensures var w := Start("thread-id", Handles).(queue := [Once(Succeed(1)), Once(SoftStopCmd), Once(Succeed(2))]);
            Run(w, n).status.Stopped? && Run(w, n).trace == [Ran(1, Some("thread-id")), Ran(2, Some("thread-id"))]
  {
    var w := Start("thread-id", Handles).(queue := [Once(Succeed(1)), Once(SoftStopCmd), Once(Succeed(2))]);
    assert w.queue == [Once(Succeed(1))] + [Once(SoftStopCmd)] + [Once(Succeed(2))];
    SoftStopRunsTheRest(w, [Once(Succeed(1))], [Once(Succeed(2))], n);
    assert Events([Once(Succeed(1))], w.id, w.handler) == [Ran(1, Some("thread-id"))];
    assert Events([Once(Succeed(2))], w.id, w.handler) == [Ran(2, Some("thread-id"))];
  }

  /** tests/test_thread.py, exception: the raising command is handed to the
      handler, the next command still runs, and the hard stop behind them
      ends the worker. */
  lemma ExceptionScenario(n: nat)
    requires n >= 4
    ensures var w := Start("thread-id", Handles).(queue := [Once(Raise(1)), Once(Succeed(2)), Once(HardStopCmd)]);
            Run(w, n).status.Stopped? &&
            Run(w, n).trace == [Handled(Once(Raise(1)), Raised(1)), Ran(2, Some("thread-id"))]
  {
    var w := Start("thread-id", Handles).(queue := [Once(Raise(1)), Once(Succeed(2)), Once(HardStopCmd)]);
    var pre := [Once(Raise(1)), Once(Succeed(2))];
    assert w.queue == pre + [Once(HardStopCmd)] + [];
    HardStopCutsQueue(w, pre, [], n);
    assert Events(pre[1..], w.id, w.handler) == [Ran(2, Some("thread-id"))];
    assert Events(pre, w.id, w.handler) == [Handled(Once(Raise(1)), Raised(1))] + [Ran(2, Some("thread-id"))];
  }
}
