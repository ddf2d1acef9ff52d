/** The command-executor thread of the object-passing variant
    (iocs/scope_based/event_loop.py) together with the two stop commands of
    iocs/commands.py. Unlike the thread of thread/commands.py, this worker
    keeps no stop flags of its own: the stop commands register
    'Thread.HardStop' and 'Thread.SoftStop' through the container, in the
    worker's current scope, and the loop asks the container for those keys
    before every command, reading an unknown key as False.

    The thread becomes an explicit state over the container world of
    `ObjectStrategy` and a step function; the queue the worker reads is the
    sequence of jobs another thread put there. */
module EventLoop {
  import opened Errors
  import opened Scopes
  import ObjectStrategy

  type World = ObjectStrategy.State

  /** The worlds the container can be in. */
  type ValidWorld = w: World | ObjectStrategy.Valid(w) witness ObjectStrategy.Empty

  const HardKey: Key := "Thread.HardStop"
  const SoftKey: Key := "Thread.SoftStop"
  const RegisterKey: Key := "IoC.Register"

  /** What a queued command does when the worker executes it. */
  datatype Job =
    /** A command that returns normally; `tag` identifies it in the trace. */
    | Succeed(tag: nat)
    /** A command whose `execute` raises. */
    | Raise(tag: nat)
    /** `HardStopThreadCommand`. */
    | HardStopJob
    /** `SoftStopThreadCommand`. */
    | SoftStopJob

  /** How the exception handler resolved at start behaves: its `handle`
      returns, or it raises and the failure is only printed. */
  datatype Handler = Handles | Raises

  /** What the worker did, in order. */
  datatype Event = Ran(tag: nat) | Handled(job: Job, error: Error) | Unhandled(job: Job)

  /** `Waiting` is a blocking `q.get()` on an empty queue; `Died` is an
      exception that escaped `run` and ended the thread. */
  datatype Status = Running | Waiting | Stopped | Died(error: Error)

  /** The worker of thread context `t`: the container world, the handler,
      the jobs queued, its status and its trace. */
  datatype Loop = Loop(w: ValidWorld, t: Ctx, handler: Handler, queue: seq<Job>, status: Status, trace: seq<Event>)

  /** Python truthiness of a resolved value: an empty storage dict and None
      are false, any scope or command object is true. */
  predicate Holds(v: Resolved) {
    match v
    case Plain(x) => Truthy(x)
    case ScopeObj(s) => s.Some?
    case FreshStorage => false
    case Command(_) => true
  }

  /** The `hard_stop` and `soft_stop` properties: resolve the key; a
      KeyError reads as False, any other exception escapes. */
  function ReadFlag(w: World, t: Ctx, key: Key): (r: Result<(bool, World)>)
    requires ObjectStrategy.Valid(w)
    ensures r.Ok? ==> ObjectStrategy.Valid(r.value.1) && r.value.1.ioc == w.ioc && r.value.1.reg.root == w.reg.root
    ensures r.Err? ==> !IsKeyError(r.error)
  {
    match ObjectStrategy.Resolve(w, t, key, [])
    case Err(e) => if IsKeyError(e) then Ok((false, w)) else Err(e)
    case Ok(eff) => Ok((Holds(eff.value), eff.world))
  }

  /** The flag reads True and the read changes nothing. */
  predicate FlagSet(w: World, t: Ctx, key: Key)
    requires ObjectStrategy.Valid(w)
  {
    ReadFlag(w, t, key) == Ok((true, w))
  }

  /** The flag reads False and the read changes nothing. */
  predicate FlagClear(w: World, t: Ctx, key: Key)
    requires ObjectStrategy.Valid(w)
  {
    ReadFlag(w, t, key) == Ok((false, w))
  }

  /** A key resolved from the start scope of `t` in an initialised world:
      a failed lookup is the resolve's error, a constant is answered as is. */
  lemma ResolveFromScope(w: World, t: Ctx, key: Key)
    requires ObjectStrategy.Ready(w) && key != RootKey
    ensures StartScope(w.reg, t).Some? && StartScope(w.reg, t).value < |w.reg.store|
    ensures var l := Lookup(w.reg.store, StartScope(w.reg, t).value, key);
            && (l.Err? ==> ObjectStrategy.Resolve(w, t, key, []) == Err(l.error))
            && (l.Ok? && l.value.Const? ==>
                  ObjectStrategy.Resolve(w, t, key, []) == Ok(ObjectStrategy.Effect(Plain(l.value.v), w)))
  {
  }

  /** A flag nobody registered on the chain of the worker's scope reads False. */
  lemma FlagUnknownReadsFalse(w: World, t: Ctx, key: Key)
    requires ObjectStrategy.Ready(w) && key != RootKey
    requires StartScope(w.reg, t).Some? && StartScope(w.reg, t).value < |w.reg.store|
    requires Lookup(w.reg.store, StartScope(w.reg, t).value, key).Err?
    ensures FlagClear(w, t, key)
  {
    ResolveFromScope(w, t, key);
  }

  /** A flag registered as a constant reads as that value's truthiness. */
  lemma FlagReadsConstant(w: World, t: Ctx, key: Key, v: Value)
    requires ObjectStrategy.Ready(w) && key != RootKey
    requires StartScope(w.reg, t).Some? && StartScope(w.reg, t).value < |w.reg.store|
    requires Lookup(w.reg.store, StartScope(w.reg, t).value, key) == Ok(Const(v))
    ensures ReadFlag(w, t, key) == Ok((Truthy(v), w))
    ensures Truthy(v) ==> FlagSet(w, t, key)
    ensures !Truthy(v) ==> FlagClear(w, t, key)
  {
    ResolveFromScope(w, t, key);
  }

  /** `IoC.resolve('IoC.Register', key, lambda: True).execute()`, the body of
      both stop commands. */
  function RaiseFlag(w: World, t: Ctx, key: Key): (r: Result<World>)
    requires ObjectStrategy.Valid(w)
    ensures r.Ok? ==> ObjectStrategy.Valid(r.value) && r.value.reg.root == w.reg.root
    ensures r.Ok? && w.ioc.Custom? ==> r.value.ioc == w.ioc
  {
    ObjectStrategy.ResolveAndExecute(w, t, RegisterKey, [Str(key), Val(Flag(true))])
  }

  /** The worker's own current scope, when its slot holds one. */
  predicate InScope(w: World, t: Ctx) {
    t in w.reg.current && w.reg.current[t].Some? && w.reg.current[t].value < |w.reg.store|
  }

  /** A stop command run by a worker whose scope still reaches the built-in
      'IoC.Register' writes True under the key into that scope only, after
      which the worker reads the flag as True; run again in the same scope
      it raises 'Dependency already registered'. */
  lemma RaiseFlagRegisters(w: World, t: Ctx, key: Key)
    requires ObjectStrategy.Ready(w) && InScope(w, t) && key != RootKey
    requires Lookup(w.reg.store, w.reg.current[t].value, RegisterKey) == Ok(Builtin(IoCRegister))
    ensures var s := w.reg.current[t].value;
            && (key in w.reg.store[s].deps ==> RaiseFlag(w, t, key) == Err(AlreadyRegistered(key)))
            && (key !in w.reg.store[s].deps ==>
                  && Register(w.reg, t, key, Flag(true)).Ok?
                  && RaiseFlag(w, t, key) == Ok(w.(reg := Register(w.reg, t, key, Flag(true)).value))
                  && ObjectStrategy.Ready(RaiseFlag(w, t, key).value)
                  && FlagSet(RaiseFlag(w, t, key).value, t, key))
  {
    var s := w.reg.current[t].value;
    ResolveFromScope(w, t, RegisterKey);
    assert ObjectStrategy.Resolve(w, t, RegisterKey, [Str(key), Val(Flag(true))])
        == Ok(ObjectStrategy.Effect(Command(RegisterCmd(key, Flag(true))), w));
    if key !in w.reg.store[s].deps {
      var w' := w.(reg := Register(w.reg, t, key, Flag(true)).value);
      assert ObjectStrategy.Ready(w');
      assert w'.reg.store[s].deps[key] == Const(Flag(true));
      FlagReadsConstant(w', t, key, Flag(true));
    }
  }

  /** The flag a worker raises is invisible to every other worker whose
      scope chain does not pass through the raising worker's scope, such
      as a sibling started from the same parent: there it still reads False. */
  lemma RaisedFlagStaysLocal(w: World, t: Ctx, key: Key, other: Ctx)
    requires ObjectStrategy.Ready(w) && InScope(w, t) && key != RootKey
    requires Lookup(w.reg.store, w.reg.current[t].value, RegisterKey) == Ok(Builtin(IoCRegister))
    requires key !in w.reg.store[w.reg.current[t].value].deps
    requires StartScope(w.reg, other).Some? && StartScope(w.reg, other).value < |w.reg.store|
    requires w.reg.current[t].value !in Chain(w.reg.store, StartScope(w.reg, other).value)
    requires Lookup(w.reg.store, StartScope(w.reg, other).value, key).Err?
    ensures RaiseFlag(w, t, key).Ok?
    ensures FlagClear(RaiseFlag(w, t, key).value, other, key)
  {
    RaiseFlagRegisters(w, t, key);
    var w' := RaiseFlag(w, t, key).value;
    RegisterInvisibleOffChain(w.reg, t, key, Flag(true), other);
    assert StrategyResolve(w'.reg, other, key) == StrategyResolve(w.reg, other, key);
    ResolveFromScope(w, other, key);
    ResolveFromScope(w', other, key);
  }

  /** `cmd.execute()` for a dequeued job, with the state it leaves and the
      events it adds. */
  function Exec(w: World, t: Ctx, j: Job): (r: Result<(World, seq<Event>)>)
    requires ObjectStrategy.Valid(w)
    ensures r.Ok? ==> ObjectStrategy.Valid(r.value.0) && r.value.0.reg.root == w.reg.root
    ensures r.Ok? && w.ioc.Custom? ==> r.value.0.ioc == w.ioc
    ensures r.Err? <==> j.Raise? || (j.HardStopJob? && RaiseFlag(w, t, HardKey).Err?)
                                 || (j.SoftStopJob? && RaiseFlag(w, t, SoftKey).Err?)
    ensures j.Raise? ==> r == Err(Raised(j.tag))
    ensures r.Ok? ==> r.value.1 == if j.Succeed? then [Ran(j.tag)] else []
  {
    match j
    case Succeed(tag) => Ok((w, [Ran(tag)]))
    case Raise(tag) => Err(Raised(tag))
    case HardStopJob =>
      var w' :- RaiseFlag(w, t, HardKey);
      Ok((w', []))
    case SoftStopJob =>
      var w' :- RaiseFlag(w, t, SoftKey);
      Ok((w', []))
  }

  /** The loop body after a command was taken: run it; a failure goes to the
      handler, and a failure of the handler is printed; either way the loop
      goes on. */
  function Dispatch(l: Loop, j: Job): (r: Loop)
    ensures ObjectStrategy.Valid(r.w) && r.w.reg.root == l.w.reg.root
    ensures l.w.ioc.Custom? ==> r.w.ioc == l.w.ioc
    ensures r == l.(w := r.w, status := Running, trace := r.trace)
    ensures j.Succeed? || j.Raise? ==> r.w == l.w && |r.trace| == |l.trace| + 1
    ensures l.trace <= r.trace && |r.trace| <= |l.trace| + 1
  {
    match Exec(l.w, l.t, j)
    case Ok((w', events)) => l.(w := w', status := Running, trace := l.trace + events)
    case Err(e) => l.(status := Running, trace := l.trace + [if l.handler == Handles then Handled(j, e) else Unhandled(j)])
  }

  /** The first two lines of `run`: a new scope under `parent` (a parentless
      one for None), made the thread's current scope. */
  function EnterScope(w: World, t: Ctx, parent: Option<ScopeRef>): (r: Result<World>)
    requires ObjectStrategy.Valid(w) && (parent.Some? ==> parent.value < |w.reg.store|)
    ensures r.Ok? ==> ObjectStrategy.Valid(r.value) && r.value.reg.root == w.reg.root
  {
    var made :- ObjectStrategy.Resolve(w, t, "Scopes.New", [if parent.Some? then ScopeArg(parent.value) else Nil]);
    var arg :- match made.value
      case ScopeObj(Some(s)) => Ok(ScopeArg(s))
      case ScopeObj(None) => Ok(Nil)
      case _ => Err(ArgumentType);
    ObjectStrategy.ResolveAndExecute(made.world, t, "Scopes.Current.Set", [arg])
  }

  /** `thread.start()`: `run` enters its scope and resolves the queue and
      the exception handler once; an exception on the way ends the thread
      before its loop. */
  function Start(w: World, t: Ctx, parent: Option<ScopeRef>, handler: Handler, queue: seq<Job>): (r: Result<Loop>)
    requires ObjectStrategy.Valid(w) && (parent.Some? ==> parent.value < |w.reg.store|)
    ensures r.Ok? ==> && r.value.w.reg.root == w.reg.root
                      && r.value == Loop(r.value.w, t, handler, queue, Running, [])
  {
    var w1 :- EnterScope(w, t, parent);
    Prepare(w1, t, handler, queue)
  }

  /** The next two lines of `run`: the queue and the exception handler,
      resolved from the thread's scope. */
  function Prepare(w: World, t: Ctx, handler: Handler, queue: seq<Job>): (r: Result<Loop>)
    requires ObjectStrategy.Valid(w)
    ensures r.Ok? ==> && r.value.w.reg.root == w.reg.root
                      && r.value == Loop(r.value.w, t, handler, queue, Running, [])
  {
    var q :- ObjectStrategy.Resolve(w, t, "Queue", []);
    var h :- ObjectStrategy.Resolve(q.world, t, "ExceptionHandler", []);
    Ok(Loop(h.world, t, handler, queue, Running, []))
  }

  /** The world after a fresh thread `t` made its scope under `p` and entered it. */
  function Entered(w: World, t: Ctx, p: ScopeRef): World {
    w.(reg := w.reg.(store := w.reg.store + [Scope(None, map[], Some(p))],
                     current := w.reg.current[t := Some(|w.reg.store|)]))
  }

  /** A key the thread looks up from its new scope is looked up in `p`. */
  ghost predicate InheritsFrom(w: World, t: Ctx, p: ScopeRef)
    requires ObjectStrategy.Valid(w) && p < |w.reg.store|
  {
    && ObjectStrategy.Valid(Entered(w, t, p))
    && forall k :: Lookup(Entered(w, t, p).reg.store, |w.reg.store|, k) == Lookup(w.reg.store, p, k)
  }

  /** The first two lines of `run` in a thread whose slot was never set: the
      built-ins are found in root, and the thread ends up in a fresh child
      of `p` that inherits every key of `p`; no other context's slot moves. */
  lemma EnterChildScope(w: World, t: Ctx, p: ScopeRef)
    requires ObjectStrategy.Ready(w) && t !in w.reg.current && p < |w.reg.store|
    ensures EnterScope(w, t, Some(p)) == Ok(Entered(w, t, p))
    ensures InheritsFrom(w, t, p) && ObjectStrategy.Ready(Entered(w, t, p))
  {
    assert Lookup(w.reg.store, 0, "Scopes.New") == Ok(Builtin(ScopesNew)) by {
      assert ("Scopes.New", Builtin(ScopesNew)) in ObjectStrategy.RootDeps.Items;
      assert ("Scopes.New", Builtin(ScopesNew)) in w.reg.store[0].deps.Items;
    }
    ObjectStrategy.NewScopeIsFreshChild(w, p);
    var made := ObjectStrategy.Resolve(w, t, "Scopes.New", [ScopeArg(p)]).value;
    assert made == ObjectStrategy.NewScope(w, [ScopeArg(p)]).value;
    var w1 := made.world;
    assert w1.reg.store[0] == w.reg.store[0];
    assert Lookup(w1.reg.store, 0, "Scopes.Current.Set") == Ok(Builtin(ScopesCurrentSet)) by {
      assert ("Scopes.Current.Set", Builtin(ScopesCurrentSet)) in ObjectStrategy.RootDeps.Items;
      assert ("Scopes.Current.Set", Builtin(ScopesCurrentSet)) in w1.reg.store[0].deps.Items;
    }
    assert ObjectStrategy.Ready(w1);
    assert ObjectStrategy.Resolve(w1, t, "Scopes.Current.Set", [ScopeArg(|w.reg.store|)])
        == Ok(ObjectStrategy.Effect(Command(SetCurrentCmd(Some(|w.reg.store|))), w1));
    assert Entered(w, t, p) == w1.(reg := SetCurrent(w1.reg, t, Some(|w.reg.store|)));
  }

  /** A fresh thread started under `p`, where the queue and the handler are
      registered as constants, runs in a fresh child of `p` with an empty
      trace and its queue as put. */
  lemma StartInFreshThread(w: World, t: Ctx, p: ScopeRef, handler: Handler, queue: seq<Job>)
    requires ObjectStrategy.Ready(w) && t !in w.reg.current && p < |w.reg.store|
    requires Lookup(w.reg.store, p, "Queue").Ok? && Lookup(w.reg.store, p, "Queue").value.Const?
    requires Lookup(w.reg.store, p, "ExceptionHandler").Ok? && Lookup(w.reg.store, p, "ExceptionHandler").value.Const?
    ensures Start(w, t, Some(p), handler, queue) == Ok(Loop(Entered(w, t, p), t, handler, queue, Running, []))
  {
    EnterChildScope(w, t, p);
    var w2: ValidWorld := Entered(w, t, p);
    assert Start(w, t, Some(p), handler, queue) == Prepare(w2, t, handler, queue);
    assert StartScope(w2.reg, t) == Some(|w.reg.store|);
    InheritedLookup(w, t, p, "Queue");
    InheritedLookup(w, t, p, "ExceptionHandler");
    PrepareFindsBoth(w2, t, handler, queue);
  }

  /** A key looked up from the thread's new scope. */
  lemma InheritedLookup(w: World, t: Ctx, p: ScopeRef, k: Key)
    requires ObjectStrategy.Valid(w) && p < |w.reg.store| && InheritsFrom(w, t, p)
    ensures Lookup(Entered(w, t, p).reg.store, |w.reg.store|, k) == Lookup(w.reg.store, p, k)
  {
  }

  /** Where the queue and the handler are constants seen from the thread's
      scope, preparing succeeds and changes nothing. */
  lemma PrepareFindsBoth(w: ValidWorld, t: Ctx, handler: Handler, queue: seq<Job>)
    requires ObjectStrategy.Ready(w)
    requires StartScope(w.reg, t).Some? && StartScope(w.reg, t).value < |w.reg.store|
    requires var q := Lookup(w.reg.store, StartScope(w.reg, t).value, "Queue"); q.Ok? && q.value.Const?
    requires var h := Lookup(w.reg.store, StartScope(w.reg, t).value, "ExceptionHandler"); h.Ok? && h.value.Const?
    ensures Prepare(w, t, handler, queue) == Ok(Loop(w, t, handler, queue, Running, []))
  {
    ResolveFromScope(w, t, "Queue");
    ResolveFromScope(w, t, "ExceptionHandler");
  }

  /** When neither `p` nor its ancestors register a queue, `run` raises
      KeyError before its loop and the thread ends. */
  lemma StartWithoutQueue(w: World, t: Ctx, p: ScopeRef, handler: Handler, queue: seq<Job>)
    requires ObjectStrategy.Ready(w) && t !in w.reg.current && p < |w.reg.store|
    requires Lookup(w.reg.store, p, "Queue").Err?
    ensures Start(w, t, Some(p), handler, queue) == Err(UnknownDependency("Queue"))
  {
    EnterChildScope(w, t, p);
    var w2 := Entered(w, t, p);
    assert StartScope(w2.reg, t) == Some(|w.reg.store|);
    ResolveFromScope(w2, t, "Queue");
  }

  /** One iteration of `run`. A stopped or dead worker stays so. A running
      one reads the hard flag and stops when it holds; then reads the soft
      flag, and with it takes a job without blocking, stopping when there is
      none; without it blocks, which is `Waiting` while the queue is empty.
      A waiting worker takes the next job put without reading the flags. */
  function Step(l: Loop): (r: Loop)
    ensures ObjectStrategy.Valid(r.w) && r.w.reg.root == l.w.reg.root
    ensures ObjectStrategy.Ready(l.w) ==> ObjectStrategy.Ready(r.w)
    ensures r.t == l.t && r.handler == l.handler && l.trace <= r.trace
    ensures r.queue == l.queue || (|l.queue| > 0 && r.queue == l.queue[1..])
    ensures l.status.Stopped? || l.status.Died? ==> r == l
    ensures r.status.Died? ==> l.status.Died? || (l.status.Running? && !IsKeyError(r.status.error))
    ensures r.status.Waiting? ==> r.queue == [] && r.trace == l.trace
    ensures r.status.Running? ==> |l.queue| > 0 && r.queue == l.queue[1..]
  {
    match l.status
    case Stopped => l
    case Died(_) => l
    case Waiting =>
      if |l.queue| == 0 then l else Dispatch(l.(queue := l.queue[1..]), l.queue[0])
    case Running =>
      match ReadFlag(l.w, l.t, HardKey)
      case Err(e) => l.(status := Died(e))
      case Ok((hard, w1)) =>
        if hard then l.(w := w1, status := Stopped)
        else match ReadFlag(w1, l.t, SoftKey)
          case Err(e) => l.(w := w1, status := Died(e))
          case Ok((soft, w2)) =>
            if |l.queue| == 0 then l.(w := w2, status := if soft then Stopped else Waiting)
            else Dispatch(l.(w := w2, queue := l.queue[1..]), l.queue[0])
  }

  /** How a running worker's iteration goes, given what it reads for the
      flags: hard stop wins over everything; soft stop ends the loop only on
      an empty queue; with neither it blocks on an empty queue; otherwise
      the head job runs. */
  lemma StepReadsFlags(l: Loop)
    requires l.status.Running?
    ensures FlagSet(l.w, l.t, HardKey) ==> Step(l) == l.(status := Stopped)
    ensures FlagClear(l.w, l.t, HardKey) && FlagSet(l.w, l.t, SoftKey) ==>
              Step(l) == if l.queue == [] then l.(status := Stopped) else Dispatch(l.(queue := l.queue[1..]), l.queue[0])
    ensures FlagClear(l.w, l.t, HardKey) && FlagClear(l.w, l.t, SoftKey) ==>
              Step(l) == if l.queue == [] then l.(status := Waiting) else Dispatch(l.(queue := l.queue[1..]), l.queue[0])
  {
  }

  /** `f` applied `n` times. */
  function Iterate<T>(f: T -> T, x: T, n: nat): T
    decreases n
  {
    if n == 0 then x else Iterate(f, f(x), n - 1)
  }

  /** Applying `f` `a` times and then `b` more is applying it `a + b` times. */
  lemma {:induction false} IterateSplit<T>(f: T -> T, x: T, a: nat, b: nat)
    ensures Iterate(f, x, a + b) == Iterate(f, Iterate(f, x, a), b)
    decreases a
  {
    if a > 0 {
      IterateSplit(f, f(x), a - 1, b);
    }
  }

  /** `n` iterations of the loop, with no producer in between. */
  function Run(l: Loop, n: nat): Loop {
    Iterate(Step, l, n)
  }

  /** Running `a` iterations and then `b` more is running `a + b`. */
  lemma RunSplit(l: Loop, a: nat, b: nat)
    ensures Run(l, a + b) == Run(Run(l, a), b)
  {
    IterateSplit(Step, l, a, b);
  }

  /** One iteration, then the rest. */
  lemma RunStep(l: Loop, n: nat)
    requires n > 0
    ensures Run(l, n) == Run(Step(l), n - 1)
  {
  }

  /** Once stopped, the worker never changes again. */
  lemma {:induction false} StoppedStays(l: Loop, n: nat)
    requires l.status.Stopped?
    ensures Run(l, n) == l
    decreases n
  {
    if n > 0 {
      RunStep(l, n);
      StoppedStays(Step(l), n - 1);
    }
  }

  /** A command that neither raises a flag nor touches the container. */
  predicate Ordinary(j: Job) {
    j.Succeed? || j.Raise?
  }

  /** The events a sequence of plain commands leaves: each runs, and each
      failure is handled or printed. */
  function Events(jobs: seq<Job>, h: Handler): seq<Event>
    decreases |jobs|
  {
    if |jobs| == 0 then [] else JobEvents(jobs[0], h) + Events(jobs[1..], h)
  }

  /** The events of one plain command (none for any other job). */
  function JobEvents(j: Job, h: Handler): seq<Event> {
    match j
    case Succeed(tag) => [Ran(tag)]
    case Raise(tag) => [if h == Handles then Handled(j, Raised(tag)) else Unhandled(j)]
    case _ => []
  }

  /** The worker reads the hard flag False and the soft flag as `soft`,
      without the reads changing anything. */
  predicate Reads(l: Loop, soft: bool) {
    && ObjectStrategy.Ready(l.w)
    && FlagClear(l.w, l.t, HardKey)
    && ReadFlag(l.w, l.t, SoftKey) == Ok((soft, l.w))
  }

  /** One iteration of a worker reading neither stop flag, with a plain
      command at the head of its queue: the command runs and nothing else
      changes. */
  lemma StepOrdinary(l: Loop, soft: bool)
    requires l.status.Running? && Reads(l, soft) && |l.queue| > 0 && Ordinary(l.queue[0])
    ensures Step(l) == l.(queue := l.queue[1..], trace := l.trace + JobEvents(l.queue[0], l.handler))
  {
    StepReadsFlags(l);
  }

  /** While the hard flag reads False, plain commands at the head of the
      queue run one per iteration, in queue order, and a failure does not stop
      the worker between them; the container is untouched. */
  lemma {:induction false} RunPlain(l: Loop, soft: bool, pre: seq<Job>, rest: seq<Job>)
    requires l.status.Running? && Reads(l, soft) && l.queue == pre + rest
    requires forall i :: 0 <= i < |pre| ==> Ordinary(pre[i])
    ensures Run(l, |pre|) == l.(queue := rest, trace := l.trace + Events(pre, l.handler))
    decreases |pre|
  {
    if |pre| == 0 {
      assert l.queue == rest;
    } else {
      assert l.queue[0] == pre[0] && l.queue[1..] == pre[1..] + rest;
      var s := l.(queue := pre[1..] + rest, trace := l.trace + JobEvents(pre[0], l.handler));
      StepOrdinary(l, soft);
      assert Step(l) == s;
      assert Reads(s, soft) by {
        assert s.w == l.w && s.t == l.t;
      }
      RunStep(l, |pre|);
      assert Run(l, |pre|) == Run(s, |pre| - 1);
      RunPlain(s, soft, pre[1..], rest);
      assert s.trace + Events(pre[1..], l.handler) == l.trace + Events(pre, l.handler);
    }
  }

  /** Without either flag the worker runs its plain commands and then blocks
      on the empty queue; with the soft flag it runs them all and stops. */
  lemma {:induction false} DrainThenBlockOrStop(l: Loop, soft: bool)
    requires l.status.Running? && Reads(l, soft)
    requires forall i :: 0 <= i < |l.queue| ==> Ordinary(l.queue[i])
    ensures Run(l, |l.queue| + 1) ==
              l.(queue := [], trace := l.trace + Events(l.queue, l.handler), status := if soft then Stopped else Waiting)
  {
    RunPlain(l, soft, l.queue, []);
    assert l.queue == l.queue + [];
    StepReadsFlags(Run(l, |l.queue|));
    RunSplit(l, |l.queue|, 1);
  }

  /** With the soft flag read True, a worker drains its plain commands
      without blocking and stops once the queue is empty, for good. */
  lemma SoftStopDrains(l: Loop, n: nat)
    requires l.status.Running? && Reads(l, true) && n > |l.queue|
    requires forall i :: 0 <= i < |l.queue| ==> Ordinary(l.queue[i])
    ensures Run(l, n) == l.(queue := [], trace := l.trace + Events(l.queue, l.handler), status := Stopped)
  {
    DrainThenBlockOrStop(l, true);
    var r := Run(l, |l.queue| + 1);
    StoppedStays(r, n - |l.queue| - 1);
    RunSplit(l, |l.queue| + 1, n - |l.queue| - 1);
  }

  /** A worker that reads the hard flag True stops at its next check, with
      all its commands still queued, and never changes again. */
  lemma {:induction false} HardStopHalts(l: Loop, n: nat)
    requires l.status.Running? && FlagSet(l.w, l.t, HardKey) && n > 0
    ensures Run(l, n) == l.(status := Stopped)
  {
    StepReadsFlags(l);
    StoppedStays(Step(l), n - 1);
  }

  /** The worker's situation right after `run` entered its scope: the slot
      names a scope from which neither flag is visible and from which the
      built-in 'IoC.Register' is reached. */
  predicate Fresh(l: Loop) {
    && ObjectStrategy.Ready(l.w) && InScope(l.w, l.t)
    && Lookup(l.w.reg.store, l.w.reg.current[l.t].value, HardKey).Err?
    && Lookup(l.w.reg.store, l.w.reg.current[l.t].value, SoftKey).Err?
    && Lookup(l.w.reg.store, l.w.reg.current[l.t].value, RegisterKey) == Ok(Builtin(IoCRegister))
  }

  /** A fresh worker reads both flags False. */
  lemma FreshReadsClear(l: Loop)
    requires Fresh(l)
    ensures Reads(l, false)
  {
    FlagUnknownReadsFalse(l.w, l.t, HardKey);
    FlagUnknownReadsFalse(l.w, l.t, SoftKey);
  }

  /** A fresh worker that executes one stop command: the flag is now set in
      its scope and the other flag is still unknown there. */
  lemma RaiseFromFresh(l: Loop, key: Key, other: Key)
    requires Fresh(l) && ((key == HardKey && other == SoftKey) || (key == SoftKey && other == HardKey))
    ensures RaiseFlag(l.w, l.t, key).Ok?
    ensures var w' := RaiseFlag(l.w, l.t, key).value;
            && ObjectStrategy.Ready(w') && InScope(w', l.t) && w'.reg.current == l.w.reg.current
            && FlagSet(w', l.t, key) && FlagClear(w', l.t, other)
            && Lookup(w'.reg.store, w'.reg.current[l.t].value, RegisterKey) == Ok(Builtin(IoCRegister))
  {
    var s := l.w.reg.current[l.t].value;
    assert key !in l.w.reg.store[s].deps;
    RaiseFlagRegisters(l.w, l.t, key);
    var w' := RaiseFlag(l.w, l.t, key).value;
    DefineLeavesOtherKeys(l.w.reg.store, s, key, Const(Flag(true)), s, other);
    DefineLeavesOtherKeys(l.w.reg.store, s, key, Const(Flag(true)), s, RegisterKey);
    FlagUnknownReadsFalse(w', l.t, other);
  }

  /** One iteration of a fresh worker with a plain command at the head of
      its queue: the command runs, and the worker is still fresh. */
  lemma FreshStepOrdinary(l: Loop)
    requires Fresh(l) && l.status.Running? && |l.queue| > 0 && Ordinary(l.queue[0])
    ensures Step(l) == l.(queue := l.queue[1..], trace := l.trace + JobEvents(l.queue[0], l.handler))
    ensures Fresh(Step(l))
  {
    FreshReadsClear(l);
    StepOrdinary(l, false);
  }

  /** One iteration of a fresh worker with a stop command at the head of its
      queue: the command registers its flag in the worker's scope, where the
      flag now reads True and the other one still reads False. */
  lemma FreshStepStop(l: Loop, key: Key, other: Key)
    requires Fresh(l) && l.status.Running? && |l.queue| > 0
    requires || (key == HardKey && other == SoftKey && l.queue[0] == HardStopJob)
             || (key == SoftKey && other == HardKey && l.queue[0] == SoftStopJob)
    ensures RaiseFlag(l.w, l.t, key).Ok?
    ensures var w' := RaiseFlag(l.w, l.t, key).value;
            && Step(l) == l.(w := w', queue := l.queue[1..])
            && ObjectStrategy.Ready(w') && InScope(w', l.t)
            && FlagSet(w', l.t, key) && FlagClear(w', l.t, other)
            && key in w'.reg.store[w'.reg.current[l.t].value].deps
            && Lookup(w'.reg.store, w'.reg.current[l.t].value, RegisterKey) == Ok(Builtin(IoCRegister))
  {
    FreshReadsClear(l);
    RaiseFromFresh(l, key, other);
    RaiseFlagRegisters(l.w, l.t, key);
    StepReadsFlags(l);
    var w' := RaiseFlag(l.w, l.t, key).value;
    assert Exec(l.w, l.t, l.queue[0]) == Ok((w', []));
    assert Step(l) == Dispatch(l.(queue := l.queue[1..]), l.queue[0]);
  }

  /** tests/test_event_loop.py, hard stop: the command before the hard stop
      runs, the worker stops, and the command behind it never runs. */
  lemma HardStopScenario(l: Loop, n: nat)
    requires Fresh(l) && l.status.Running? && l.queue == [Succeed(1), HardStopJob, Succeed(2)] && n >= 3
    ensures Run(l, n).status.Stopped? && Run(l, n).queue == [Succeed(2)]
    ensures Run(l, n).trace == l.trace + [Ran(1)]
  {
    FreshStepOrdinary(l);
    var l1 := Step(l);
    assert l1.queue == [HardStopJob, Succeed(2)] && l1.trace == l.trace + [Ran(1)];
    FreshStepStop(l1, HardKey, SoftKey);
    var l2 := Step(l1);
    HardStopHalts(l2, n - 2);
    RunStep(l, n);
    RunStep(l1, n - 1);
    assert Run(l, n) == Run(l2, n - 2);
  }

  /** tests/test_event_loop.py, soft stop: the commands on both sides of the
      soft stop run, then the worker stops on the empty queue. */
  lemma SoftStopScenario(l: Loop, n: nat)
    requires Fresh(l) && l.status.Running? && l.queue == [Succeed(1), SoftStopJob, Succeed(2)] && n >= 4
    ensures Run(l, n).status.Stopped? && Run(l, n).queue == []
    ensures Run(l, n).trace == l.trace + [Ran(1), Ran(2)]
  {
    FreshStepOrdinary(l);
    var l1 := Step(l);
    assert l1.queue == [SoftStopJob, Succeed(2)] && l1.trace == l.trace + [Ran(1)];
    FreshStepStop(l1, SoftKey, HardKey);
    var l2 := Step(l1);
    assert Reads(l2, true) && l2.queue == [Succeed(2)];
    SoftStopDrains(l2, n - 2);
    assert Events([Succeed(2)], l.handler) == JobEvents(Succeed(2), l.handler) + Events([], l.handler);
    RunStep(l, n);
    RunStep(l1, n - 1);
    assert Run(l, n) == Run(l2, n - 2);
    assert l2.trace == l1.trace;
    assert l.trace + [Ran(1)] + [Ran(2)] == l.trace + [Ran(1), Ran(2)];
  }

  /** tests/test_event_loop.py, exception: the raising command goes to the
      handler, the next command still runs, and the hard stop behind them
      ends the worker. */
  lemma ExceptionScenario(l: Loop, n: nat)
    requires Fresh(l) && l.status.Running? && l.handler == Handles
    requires l.queue == [Raise(1), Succeed(2), HardStopJob] && n >= 4
    ensures Run(l, n).status.Stopped? && Run(l, n).queue == []
    ensures Run(l, n).trace == l.trace + [Handled(Raise(1), Raised(1)), Ran(2)]
  {
    FailureThenSuccess(l);
    var l2 := Step(Step(l));
    FreshStepStop(l2, HardKey, SoftKey);
    var l3 := Step(l2);
    HardStopHalts(l3, n - 3);
    RunStep(l, n);
    RunStep(Step(l), n - 1);
    RunStep(l2, n - 2);
    assert Run(l, n) == Run(l3, n - 3);
  }

  /** The first two iterations of the exception scenario: the failure is
      handled, the next command runs, and the worker is still fresh. */
  lemma FailureThenSuccess(l: Loop)
    requires Fresh(l) && l.status.Running? && l.handler == Handles
    requires l.queue == [Raise(1), Succeed(2), HardStopJob]
    ensures Fresh(Step(Step(l))) && Step(Step(l)).status.Running?
    ensures Step(Step(l)).queue == [HardStopJob]
    ensures Step(Step(l)).trace == l.trace + [Handled(Raise(1), Raised(1)), Ran(2)]
  {
    FreshStepOrdinary(l);
    var l1 := Step(l);
    assert l1.queue == [Succeed(2), HardStopJob] && l1.trace == l.trace + [Handled(Raise(1), Raised(1))];
    FreshStepOrdinary(l1);
    assert l.trace + [Handled(Raise(1), Raised(1))] + [Ran(2)] == l.trace + [Handled(Raise(1), Raised(1)), Ran(2)];
  }

  /** A second soft stop in the same scope finds the key already registered:
      the failure goes to the handler and the worker still stops on the
      empty queue. */
  lemma SoftStopTwice(l: Loop)
    requires Fresh(l) && l.status.Running? && l.handler == Handles && l.queue == [SoftStopJob, SoftStopJob]
    ensures Run(l, 3).status.Stopped? && Run(l, 3).queue == []
    ensures Run(l, 3).trace == l.trace + [Handled(SoftStopJob, AlreadyRegistered(SoftKey))]
  {
    FreshStepStop(l, SoftKey, HardKey);
    var l1 := Step(l);
    RaiseFlagRegisters(l1.w, l1.t, SoftKey);
    assert Exec(l1.w, l1.t, SoftStopJob) == Err(AlreadyRegistered(SoftKey));
    StepReadsFlags(l1);
    var l2 := Step(l1);
    assert l2 == l1.(queue := [], trace := l.trace + [Handled(SoftStopJob, AlreadyRegistered(SoftKey))]);
    StepReadsFlags(l2);
    RunStep(l, 3);
    RunStep(l1, 2);
    RunStep(l2, 1);
  }
}
