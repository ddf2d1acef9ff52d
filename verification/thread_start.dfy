/** `StartThreadCommand.execute` (thread/commands.py) up to the start of the
    thread, run by context `ctx` against the id-keyed strategy: it creates
    a scope named after the thread as a child of the caller's current
    scope, makes it the caller's current scope, and registers the thread's
    entry points there. The closures it registers are opaque values here;
    what the worker does with them is modelled in `ThreadLoop`. */
module ThreadStart {
  import opened Errors
  import opened Scopes
  import opened IdStrategy
  import Builder

  /** What `StartThreadCommand.execute` registers, in order. */
  const ThreadRegs: seq<(Key, Value)> := [
    ("Thread.Put", Opaque("put into the thread's queue")),
    ("Thread.PutWithRepeat", Opaque("put a repeated command into the thread's queue")),
    ("Thread.HardStop", Opaque("hard-stop command of the thread")),
    ("Thread.SoftStop", Opaque("soft-stop command of the thread")),
    ("Thread", Opaque("the thread object"))]

  /** `.id` of what 'Scopes.Current' returned: the scope's id (a scope
      without one gives `None`); `None` itself has no attribute, and
      neither does anything that is not a scope. */
  function IdOf(w: State, v: Resolved): (r: Result<Arg>)
    requires v.ScopeObj? && v.scope.Some? ==> v.scope.value < |w.reg.store|
    ensures r.Ok? <==> v.ScopeObj? && v.scope.Some?
    ensures r.Ok? ==> r.value == (match w.reg.store[v.scope.value].id case Some(id) => Str(id) case None => Nil)
    ensures v == ScopeObj(None) ==> r == Err(NoneAttribute)
  {
    match v
    case ScopeObj(Some(s)) => (match w.reg.store[s].id case Some(id) => Ok(Str(id)) case None => Ok(Nil))
    case ScopeObj(None) => Err(NoneAttribute)
    case _ => Err(NoAttribute("id"))
  }

  /** `StartThreadCommand(tid).execute()` run by `ctx`, as far as the
      registration of 'Thread' (thread/commands.py:36-64, 102). */
  function StartThread(w: State, ctx: Ctx, tid: string): (r: Result<State>)
    requires IdStrategy.Valid(w)
    ensures r.Ok? ==> IdStrategy.Valid(r.value)
    ensures r.Ok? ==> r.value.reg.root == w.reg.root && |w.reg.store| <= |r.value.reg.store|
  {
    var cur :- Resolve(w, ctx, "Scopes.Current", []);
    var parentId :- IdOf(cur.world, cur.value);
    var made :- Resolve(cur.world, ctx, "Scopes.New", [Str(tid), parentId]);
    EnterAndRegister(made.world, ctx, tid)
  }

  /** The rest of the command once the scope exists: make it current, then
      register the thread's entry points in it. */
  function EnterAndRegister(w: State, ctx: Ctx, tid: string): (r: Result<State>)
    requires IdStrategy.Valid(w)
    ensures r.Ok? ==> IdStrategy.Valid(r.value)
    ensures r.Ok? ==> r.value.reg.root == w.reg.root && |w.reg.store| <= |r.value.reg.store|
  {
    var w1 :- ResolveAndExecute(w, ctx, "Scopes.Current.Set", [Str(tid)]);
    Builder.RegisterAll(w1, ctx, ThreadRegs)
  }

  /** The built-ins the command resolves still mean the built-ins from `s`. */
  predicate BuiltinsVisible(w: State, s: ScopeRef)
    requires IdStrategy.Valid(w) && s < |w.reg.store|
  {
    && Lookup(w.reg.store, s, "Scopes.Current") == Ok(Builtin(ScopesCurrent))
    && Lookup(w.reg.store, s, "Scopes.New") == Ok(Builtin(ScopesNew))
    && Lookup(w.reg.store, s, "Scopes.Current.Set") == Ok(Builtin(ScopesCurrentSet))
    && Lookup(w.reg.store, s, "IoC.Register") == Ok(Builtin(IoCRegister))
  }

  lemma ThreadKeysDistinct()
    ensures forall i, j :: 0 <= i < j < |ThreadRegs| ==> ThreadRegs[i].0 != ThreadRegs[j].0
    ensures forall i :: 0 <= i < |ThreadRegs| ==> ThreadRegs[i].0 != "IoC.Register" && ThreadRegs[i].0 != RootKey
  {
    assert |ThreadRegs[0].0| == 10 && |ThreadRegs[1].0| == 20 && |ThreadRegs[2].0| == 15;
    assert |ThreadRegs[3].0| == 15 && |ThreadRegs[4].0| == 6;
    assert ThreadRegs[2].0[7] == 'H' && ThreadRegs[3].0[7] == 'S';
  }

  /** The state after 'Scopes.New': the thread's scope appended as a child
      of `cur` and named `tid` in the table. */
  function Created(w: State, tid: string, cur: ScopeRef): (r: State)
    requires IdStrategy.Valid(w) && cur < |w.reg.store|
  {
    w.(reg := Append(w.reg, Some(tid), Some(cur)), ids := w.ids[tid := |w.reg.store|])
  }

  /** The state after 'Scopes.Current.Set' as well: the new scope is the caller's. */
  function Entered(w: State, ctx: Ctx, tid: string, cur: ScopeRef): (r: State)
    requires IdStrategy.Valid(w) && cur < |w.reg.store|
  {
    var w1 := Created(w, tid, cur);
    w1.(reg := SetCurrent(w1.reg, ctx, Some(|w.reg.store|)))
  }

  /** The precondition shared by the lemmas below: the caller's current
      scope still resolves the built-ins, and its id names it in the table. */
  predicate StartsFrom(w: State, ctx: Ctx)
  {
    && Ready(w) && ctx in w.reg.current
    && var cur := w.reg.current[ctx].value;
    && BuiltinsVisible(w, cur)
    && w.reg.store[cur].id.Some? && w.reg.store[cur].id.value != ""
    && w.reg.store[cur].id.value in w.ids && w.ids[w.reg.store[cur].id.value] == cur
  }

  /** Resolving 'Scopes.Current' and then 'Scopes.New' with the current
      scope's id as parent creates the thread's scope under it. */
  lemma {:induction false} CreateThreadScope(w: State, ctx: Ctx, tid: string)
    requires StartsFrom(w, ctx) && tid !in w.ids
    ensures var cur := w.reg.current[ctx].value;
            && IdStrategy.Valid(Created(w, tid, cur))
            && StartThread(w, ctx, tid) == EnterAndRegister(Created(w, tid, cur), ctx, tid)
  {
    var cur := w.reg.current[ctx].value;
    var pid := w.reg.store[cur].id.value;
    assert StartScope(w.reg, ctx) == Some(cur);
    ResolveCallsFound(w, ctx, "Scopes.Current", Builtin(ScopesCurrent), []);
    assert Resolve(w, ctx, "Scopes.Current", []) == Ok(Effect(ScopeObj(Some(cur)), w));
    assert IdOf(w, ScopeObj(Some(cur))) == Ok(Str(pid));
    ResolveCallsFound(w, ctx, "Scopes.New", Builtin(ScopesNew), [Str(tid), Str(pid)]);
    NewScopeUnderId(w, ctx, tid, pid);
    assert NewScope(w, ctx, [Str(tid), Str(pid)]).value.world == Created(w, tid, cur);
  }

  /** Then 'Scopes.Current.Set' makes it the caller's current scope, from
      which 'IoC.Register' still means the built-in. */
  lemma {:induction false} EnterThreadScope(w: State, ctx: Ctx, tid: string)
    requires StartsFrom(w, ctx) && tid !in w.ids
    ensures var cur := w.reg.current[ctx].value;
            && IdStrategy.Valid(Created(w, tid, cur))
            && EnterAndRegister(Created(w, tid, cur), ctx, tid) == Builder.RegisterAll(Entered(w, ctx, tid, cur), ctx, ThreadRegs)
            && Builder.CanRegister(Entered(w, ctx, tid, cur), ctx)
  {
    var cur := w.reg.current[ctx].value;
    var s := |w.reg.store|;
    var w1 := Created(w, tid, cur);
    CreatedScope(w, ctx, tid);
    ResolveSetCurrent(w1, ctx, tid);
    var w2 := Entered(w, ctx, tid, cur);
    assert w2 == w1.(reg := SetCurrent(w1.reg, ctx, Some(w1.ids[tid])));
    assert Ready(w2) && w2.reg.current[ctx] == Some(s) && w2.reg.store == w1.reg.store;
  }

  /** The state right after 'Scopes.New': still initialised, the caller's
      slot untouched, the new id naming the new scope, which answers as
      `cur` does; `cur` still answers as before. */
  lemma CreatedScope(w: State, ctx: Ctx, tid: string)
    requires StartsFrom(w, ctx) && tid !in w.ids
    ensures var cur := w.reg.current[ctx].value;
            var w1 := Created(w, tid, cur);
            && Ready(w1) && w1.reg.current == w.reg.current && w1.ids[tid] == |w.reg.store|
            && Lookup(w1.reg.store, cur, "Scopes.Current.Set") == Ok(Builtin(ScopesCurrentSet))
            && Lookup(w1.reg.store, |w.reg.store|, "IoC.Register") == Ok(Builtin(IoCRegister))
  {
    var cur := w.reg.current[ctx].value;
    var s := |w.reg.store|;
    var w1 := Created(w, tid, cur);
    var r := Append(w.reg, Some(tid), Some(cur));
    assert w1.reg == r;
    AppendedScopeInherits(w.reg, Some(tid), cur);
    assert Lookup(r.store, cur, "Scopes.Current.Set") == Lookup(w.reg.store, cur, "Scopes.Current.Set");
    assert Lookup(r.store, s, "IoC.Register") == Lookup(w.reg.store, cur, "IoC.Register");
    assert w1.reg.store[s].id == Some(tid);
    forall i | 0 <= i < s ensures w1.reg.store[i] == w.reg.store[i] { }
  }

  /** Started from a current scope whose id still names it in the table,
      with a new thread id: a scope named `tid` is created as a child of the
      caller's current scope and becomes the caller's current scope, the
      thread's entry points are registered in it, and no scope that
      existed before changes, so none of them sees those entries. (When
      the id was reused after 'Scopes.Clear', it names another scope, and
      the thread's scope becomes that scope's child instead.) */
  lemma {:induction false} StartThreadCreatesScope(w: State, ctx: Ctx, tid: string)
    requires StartsFrom(w, ctx) && tid !in w.ids
    ensures StartThread(w, ctx, tid).Ok?
    ensures var w' := StartThread(w, ctx, tid).value;
            var s := |w.reg.store|;
            && |w'.reg.store| == s + 1
            && (forall i :: 0 <= i < s ==> w'.reg.store[i] == w.reg.store[i])
            && w'.reg.store[s].id == Some(tid)
            && w'.reg.store[s].parent == Some(w.reg.current[ctx].value)
            && (forall i :: 0 <= i < |ThreadRegs| ==>
                  ThreadRegs[i].0 in w'.reg.store[s].deps && w'.reg.store[s].deps[ThreadRegs[i].0] == Const(ThreadRegs[i].1))
            && w'.reg.current == w.reg.current[ctx := Some(s)]
            && w'.ids == w.ids[tid := s]
            && w'.ioc == w.ioc
  {
    var cur := w.reg.current[ctx].value;
    var s := |w.reg.store|;
    var w2 := Entered(w, ctx, tid, cur);
    assert StartThread(w, ctx, tid) == Builder.RegisterAll(w2, ctx, ThreadRegs) && Builder.CanRegister(w2, ctx) by {
      CreateThreadScope(w, ctx, tid);
      EnterThreadScope(w, ctx, tid);
    }
    assert w2.reg.store == w.reg.store + [Scope(Some(tid), map[], Some(cur))]
           && w2.reg.current == w.reg.current[ctx := Some(s)] && w2.ids == w.ids[tid := s] && w2.ioc == w.ioc;
    assert Builder.FreshKeys(w2, ctx, ThreadRegs) by {
      ThreadKeysDistinct();
    }
    Builder.RegisterAllFresh(w2, ctx, ThreadRegs);
    Builder.AddAllContents(map[], ThreadRegs);
    var w' := Builder.RegisterAll(w2, ctx, ThreadRegs).value;
    forall i | 0 <= i < s ensures w'.reg.store[i] == w.reg.store[i] {
      assert w2.reg.store[i] == w.reg.store[i];
    }
  }

  /** A second thread with the same id, from the same place, is refused by
      'Scopes.New' before anything changes. */
  lemma {:induction false} StartThreadDuplicateId(w: State, ctx: Ctx, tid: string)
    requires StartsFrom(w, ctx) && tid in w.ids
    ensures StartThread(w, ctx, tid) == Err(ScopeExists(tid))
  {
    var cur := w.reg.current[ctx].value;
    var pid := w.reg.store[cur].id.value;
    assert StartScope(w.reg, ctx) == Some(cur);
    ResolveCallsFound(w, ctx, "Scopes.Current", Builtin(ScopesCurrent), []);
    assert Resolve(w, ctx, "Scopes.Current", []) == Ok(Effect(ScopeObj(Some(cur)), w));
    assert IdOf(w, ScopeObj(Some(cur))) == Ok(Str(pid));
    ResolveCallsFound(w, ctx, "Scopes.New", Builtin(ScopesNew), [Str(tid), Str(pid)]);
    NewScopeRefusals(w, ctx, tid, pid);
  }

  /** After 'Scopes.Clear' the caller's current scope may no longer be
      named in the table; its id then finds no parent, and the thread
      cannot be started. */
  lemma {:induction false} StartThreadFromForgottenScope(w: State, ctx: Ctx, tid: string)
    requires Ready(w) && ctx in w.reg.current
    requires var cur := w.reg.current[ctx].value;
             && BuiltinsVisible(w, cur)
             && w.reg.store[cur].id.Some? && w.reg.store[cur].id.value != ""
             && w.reg.store[cur].id.value !in w.ids
    ensures StartThread(w, ctx, tid) == Err(NoParentScope)
  {
    var cur := w.reg.current[ctx].value;
    var pid := w.reg.store[cur].id.value;
    assert StartScope(w.reg, ctx) == Some(cur);
    ResolveCallsFound(w, ctx, "Scopes.Current", Builtin(ScopesCurrent), []);
    assert Resolve(w, ctx, "Scopes.Current", []) == Ok(Effect(ScopeObj(Some(cur)), w));
    assert IdOf(w, ScopeObj(Some(cur))) == Ok(Str(pid));
    ResolveCallsFound(w, ctx, "Scopes.New", Builtin(ScopesNew), [Str(tid), Str(pid)]);
    NewScopeRefusals(w, ctx, tid, pid);
  }

  /** A context that never set its current scope gets `None` from
      'Scopes.Current', and reading `.id` from it raises. */
  lemma {:induction false} StartThreadWithoutScope(w: State, ctx: Ctx, tid: string)
    requires Ready(w) && ctx !in w.reg.current
    ensures StartThread(w, ctx, tid) == Err(NoneAttribute)
  {
    assert StartScope(w.reg, ctx) == Some(0);
    assert Lookup(w.reg.store, 0, "Scopes.Current") == Ok(Builtin(ScopesCurrent)) by {
      assert ("Scopes.Current", Builtin(ScopesCurrent)) in RootDeps.Items;
      assert ("Scopes.Current", Builtin(ScopesCurrent)) in w.reg.store[0].deps.Items;
    }
    ResolveCallsFound(w, ctx, "Scopes.Current", Builtin(ScopesCurrent), []);
    assert Resolve(w, ctx, "Scopes.Current", []) == Ok(Effect(ScopeObj(None), w));
    assert IdOf(w, ScopeObj(None)) == Err(NoneAttribute);
  }
}
