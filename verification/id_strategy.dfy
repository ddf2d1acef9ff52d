/** The id-keyed hierarchical strategy of iocs/scope_based_strategy.py wired
    into the bootstrap container: the `IoC.strategy` slot, the strategy's
    class state (root and per-context current scope), every scope created,
    and the `scopes` id table that the initialisation command's closures share.

    The built-in closures installed in the root scope are modelled by calling
    their models directly. */
module IdStrategy {
  import opened Errors
  import opened Scopes
  import Bootstrap

  const RootId: string := "ROOT"

  /** The dependency map the initialisation command gives the root scope. */
  const RootDeps: map<Key, Factory> := map[
    "Scopes.Storage" := Builtin(ScopesStorage),
    "Scopes.New" := Builtin(ScopesNew),
    "Scopes.Clear" := Builtin(ScopesClear),
    "Scopes.Current" := Builtin(ScopesCurrent),
    "Scopes.Current.Set" := Builtin(ScopesCurrentSet),
    "IoC.Register" := Builtin(IoCRegister)]

  datatype State = State(ioc: Bootstrap.Installed<Arg>, reg: Registry, ids: map<string, ScopeRef>)

  /** What the model keeps true of every reachable state: before
      initialisation nothing exists; afterwards root is the first scope, has
      id 'ROOT' and no parent, keeps its built-ins, every other scope has a
      parent, the id table names scopes carrying that id, and every slot
      that was set holds a scope. */
  predicate Valid(w: State) {
    && Scopes.Valid(w.reg)
    && (w.reg.root.None? ==> w.reg.store == [] && w.ids == map[] && w.reg.current == map[])
    && (w.reg.root.Some? ==>
          && w.reg.root.value == 0 && |w.reg.store| > 0
          && w.reg.store[0].id == Some(RootId) && w.reg.store[0].parent.None?
          && RootDeps.Items <= w.reg.store[0].deps.Items
          && RootId in w.ids && w.ids[RootId] == 0)
    && (forall i :: 0 < i < |w.reg.store| ==> w.reg.store[i].parent.Some?)
    && (forall id :: id in w.ids ==> w.ids[id] < |w.reg.store| && w.reg.store[w.ids[id]].id == Some(id))
    && (forall c :: c in w.reg.current ==> w.reg.current[c].Some?)
  }

  /** A resolve's value together with the state it leaves behind. */
  datatype Effect = Effect(value: Resolved, world: State)

  /** A command is executable in `w` when the scope it targets exists and,
      for `Scopes.Clear`, when the root it restores exists. */
  predicate CmdOk(w: State, cmd: Cmd) {
    match cmd
    case SetCurrentCmd(t) => t.Some? && t.value < |w.reg.store|
    case ClearCmd => w.reg.root.Some?
    case _ => true
  }

  predicate EffectOk(w: State, e: Effect) {
    && Valid(e.world)
    && e.world.ioc == w.ioc
    && e.world.reg.root == w.reg.root
    && |w.reg.store| <= |e.world.reg.store|
    && (e.value.Command? ==> CmdOk(e.world, e.value.cmd))
    && (e.value.ScopeObj? && e.value.scope.Some? ==> e.value.scope.value < |e.world.reg.store|)
  }

  /** The parent `create_new_scope` picks. A true `parent_scope_id` is looked
      up in the id table, and an id the table does not hold gives None; a
      list cannot be looked up at all (TypeError). A false one (None, '',
      0, ...) means the caller's current scope. */
  function ParentFor(w: State, ctx: Ctx, parentId: Arg): (r: Result<Option<ScopeRef>>)
    requires Valid(w)
    ensures !ArgTruthy(parentId) ==> r == Ok(CurrentScope(w.reg, ctx))
    ensures ArgTruthy(parentId) ==>
              if !Hashable(parentId) then r == Err(ArgumentType)
              else r == Ok(if parentId.Str? && parentId.s in w.ids then Some(w.ids[parentId.s]) else None)
    ensures r.Ok? && r.value.Some? ==> r.value.value < |w.reg.store|
  {
    if !ArgTruthy(parentId) then Ok(CurrentScope(w.reg, ctx))
    else if !Hashable(parentId) then Err(ArgumentType)
    else match parentId
      case Str(p) => Ok(if p in w.ids then Some(w.ids[p]) else None)
      case _ => Ok(None)
  }

  /** The 'Scopes.New' closure: `create_new_scope(scope_id, parent_scope_id=None)`. */
  function NewScope(w: State, ctx: Ctx, args: seq<Arg>): (r: Result<Effect>)
    requires Valid(w)
    ensures r.Ok? ==> EffectOk(w, r.value)
    ensures r.Ok? ==>
              && 1 <= |args| <= 2 && args[0].Str?
              && var id := args[0].s;
              && var parent := (if |args| == 2 then ParentFor(w, ctx, args[1]) else Ok(CurrentScope(w.reg, ctx)));
              && parent.Ok? && parent.value.Some?
              && id !in w.ids
              && r.value.value == ScopeObj(Some(|w.reg.store|))
              && r.value.world == w.(reg := w.reg.(store := w.reg.store + [Scope(Some(id), map[], parent.value)]),
                                     ids := w.ids[id := |w.reg.store|])
    ensures 1 <= |args| <= 2 && args[0].Str? && args[0].s in w.ids &&
            (|args| == 1 || !ParentFor(w, ctx, args[1]).Err?) ==>
              r.Err? && (r.error == NoParentScope || r.error == ScopeExists(args[0].s))
    ensures |args| == 1 && args[0].Str? && CurrentScope(w.reg, ctx).None? ==> r == Err(NoParentScope)
  {
    if |args| < 1 || |args| > 2 || !args[0].Str? then Err(ArgumentType)
    else
      var id := args[0].s;
      var parent :- if |args| == 2 then ParentFor(w, ctx, args[1]) else Ok(CurrentScope(w.reg, ctx));
      if parent.None? then Err(NoParentScope)
      else if id in w.ids then Err(ScopeExists(id))
      else
        var s := |w.reg.store|;
        var w' := w.(reg := Append(w.reg, Some(id), parent), ids := w.ids[id := s]);
        assert Valid(w') by {
          assert w'.reg.store[s].id == Some(id);
          forall i | 0 <= i < s ensures w'.reg.store[i] == w.reg.store[i] { }
        }
        Ok(Effect(ScopeObj(Some(s)), w'))
  }

  /** Calling the factory the lookup found with the caller's arguments. */
  function Call(w: State, ctx: Ctx, f: Factory, args: seq<Arg>): (r: Result<Effect>)
    requires Valid(w)
    ensures r.Ok? ==> EffectOk(w, r.value)
    ensures f.Const? ==> r == Ok(Effect(Plain(f.v), w))
    ensures r.Ok? && !(f == Builtin(ScopesNew)) ==> r.value.world == w
  {
    match f
    case Const(v) => Ok(Effect(Plain(v), w))
    case Builtin(op) =>
      match op
      case ScopesStorage => if |args| == 0 then Ok(Effect(FreshStorage, w)) else Err(ArgumentType)
      case ScopesNew => NewScope(w, ctx, args)
      case ScopesClear => if |args| == 0 && w.reg.root.Some? then Ok(Effect(Command(ClearCmd), w)) else Err(ArgumentType)
      case ScopesCurrent => if |args| == 0 then Ok(Effect(ScopeObj(CurrentScope(w.reg, ctx)), w)) else Err(ArgumentType)
      case ScopesCurrentSet =>
        if |args| != 1 || !Hashable(args[0]) then Err(ArgumentType)
        else if !args[0].Str? then Err(UnknownScopeKey)
        else if args[0].s in w.ids then Ok(Effect(Command(SetCurrentCmd(Some(w.ids[args[0].s]))), w))
        else Err(UnknownScopeId(args[0].s))
      case IoCRegister =>
        if |args| == 2 && args[0].Str? && args[1].Val? then Ok(Effect(Command(RegisterCmd(args[0].s, args[1].v)), w))
        else Err(ArgumentType)
  }

  /** The strategy's `resolve` classmethod, installed as `IoC.strategy`;
      any other installed value is not callable. */
  function Apply(w: State, ctx: Ctx, x: Arg, key: Key, args: seq<Arg>): (r: Result<Bootstrap.Reply<Arg, Effect>>)
    requires Valid(w)
    ensures r.Ok? ==> r.value.Answer? && EffectOk(w, r.value.answer)
    ensures !x.ResolveFn? ==> r == Err(NotCallable)
  {
    if !x.ResolveFn? then Err(NotCallable)
    else match StrategyResolve(w.reg, ctx, key)
      case Err(e) => Err(e)
      case Ok(RootScope(root)) => Ok(Bootstrap.Answer(Effect(ScopeObj(root), w)))
      case Ok(Found(f)) =>
        match Call(w, ctx, f, args)
        case Err(e) => Err(e)
        case Ok(eff) => Ok(Bootstrap.Answer(eff))
  }

  /** `IoC.resolve(key, *args)` called from context `ctx`. */
  function Resolve(w: State, ctx: Ctx, key: Key, args: seq<Arg>): (r: Result<Effect>)
    requires Valid(w)
    ensures r.Ok? ==> EffectOk(w, r.value)
    ensures w.ioc.DefaultStrategy? ==> (r.Ok? <==> key == Bootstrap.SetupKey && |args| > 0)
  {
    match w.ioc
    case DefaultStrategy =>
      if key == Bootstrap.SetupKey && |args| > 0 then Ok(Effect(Command(SetupCmd(args[0])), w))
      else if key == Bootstrap.SetupKey then Err(MissingArgument)
      else Err(UnknownDependency(key))
    case Custom(x) =>
      match Apply(w, ctx, x, key, args)
      case Ok(reply) => Ok(reply.answer)
      case Err(e) => Err(e)
  }

  /** The resolve above is the container's `IoC.resolve` with this
      strategy's `resolve` installed as the callable. */
  lemma ResolveThroughContainer(w: State, ctx: Ctx, key: Key, args: seq<Arg>)
    requires Valid(w)
    ensures var apply := (x: Arg, k: Key, a: seq<Arg>) requires Valid(w) => Apply(w, ctx, x, k, a);
            Resolve(w, ctx, key, args) ==
              match Bootstrap.Resolve(w.ioc, apply, key, args)
              case Err(e) => Err(e)
              case Ok(reply) =>
                if reply.SetupCommand? then Ok(Effect(Command(SetupCmd(reply.newStrategy)), w)) else Ok(reply.answer)
  {
  }

  /** `execute()` of a command the strategy handed out, run by context `ctx`. */
  function Execute(w: State, ctx: Ctx, cmd: Cmd): (r: Result<State>)
    requires Valid(w) && CmdOk(w, cmd)
    ensures r.Ok? ==> Valid(r.value)
    ensures cmd.SetCurrentCmd? ==> r == Ok(w.(reg := SetCurrent(w.reg, ctx, cmd.target)))
    ensures cmd.RegisterCmd? ==>
              match Register(w.reg, ctx, cmd.key, cmd.v)
              case Ok(reg') => r == Ok(w.(reg := reg'))
              case Err(e) => r == Err(e)
    ensures cmd.ClearCmd? ==> r == Ok(w.(ids := map[RootId := w.reg.root.value]))
    ensures cmd.SetupCmd? ==> r == Ok(w.(ioc := Bootstrap.ExecuteSetup(w.ioc, cmd.strategy)))
  {
    match cmd
    case SetCurrentCmd(t) => Ok(w.(reg := SetCurrent(w.reg, ctx, t)))
    case RegisterCmd(key, v) =>
      var reg' :- Register(w.reg, ctx, key, v);
      assert Valid(w.(reg := reg')) by {
        if w.reg.root.Some? {
          assert reg'.store[0].deps.Items >= w.reg.store[0].deps.Items by {
            if w.reg.current[ctx].value == 0 {
              assert key !in w.reg.store[0].deps;
            }
          }
        }
        forall id | id in w.ids ensures reg'.store[w.ids[id]].id == Some(id) {
          assert reg'.store[w.ids[id]].id == w.reg.store[w.ids[id]].id;
        }
        forall i | 0 < i < |reg'.store| ensures reg'.store[i].parent.Some? {
          assert reg'.store[i].parent == w.reg.store[i].parent;
        }
      }
      Ok(w.(reg := reg'))
    case ClearCmd => Ok(w.(ids := map[RootId := w.reg.root.value]))
    case SetupCmd(x) => Ok(w.(ioc := Bootstrap.ExecuteSetup(w.ioc, x)))
  }

  /** The state of a process that has not run the initialisation command. */
  const Empty: State := State(Bootstrap.DefaultStrategy, Registry(None, [], map[]), map[])

  /** `InitScopesCommand().execute()` run by context `ctx`: does nothing once
      root exists; otherwise installs the strategy through the container,
      creates root with the built-ins, and makes root the caller's current scope. */
  function InitScopes(w: State, ctx: Ctx): (r: Result<State>)
    requires Valid(w)
    ensures r.Ok? ==> Valid(r.value)
    ensures w.reg.root.Some? ==> r == Ok(w)
    ensures w.reg.root.None? && r.Ok? ==>
              && r.value.reg.root == Some(0)
              && r.value.reg.store == [Scope(Some(RootId), RootDeps, None)]
              && r.value.ids == map[RootId := 0]
              && r.value.reg.current == map[ctx := Some(0)]
              && r.value.ioc == Bootstrap.Custom(ResolveFn)
    ensures w.reg.root.None? ==> (r.Ok? <==> w.ioc.DefaultStrategy?)
  {
    if w.reg.root.Some? then Ok(w)
    else
      var setup :- Resolve(w, ctx, Bootstrap.SetupKey, [ResolveFn]);
      if !setup.value.Command? then Err(NotACommand)
      else match Execute(setup.world, ctx, setup.value.cmd)
        case Err(e) => Err(e)
        case Ok(w1) =>
          var reg := w1.reg.(root := Some(0), store := [Scope(Some(RootId), RootDeps, None)],
                             current := w1.reg.current[ctx := Some(0)]);
          Ok(w1.(reg := reg, ids := map[RootId := 0]))
  }

  /** `IoC.resolve(key, *args).execute()`: resolve a command and execute it
      in the state the resolve left behind; a non-command has no `execute`. */
  function ResolveAndExecute(w: State, ctx: Ctx, key: Key, args: seq<Arg>): (r: Result<State>)
    requires Valid(w)
    ensures r.Ok? ==> Valid(r.value) && r.value.reg.root == w.reg.root
    ensures r.Ok? ==> |w.reg.store| <= |r.value.reg.store|
    ensures r.Ok? ==> Resolve(w, ctx, key, args).Ok? && Resolve(w, ctx, key, args).value.value.Command?
  {
    var eff :- Resolve(w, ctx, key, args);
    if !eff.value.Command? then Err(NotACommand)
    else
      Execute(eff.world, ctx, eff.value.cmd)
  }

  /** The strategy is installed and initialised. */
  predicate Ready(w: State) {
    Valid(w) && w.ioc == Bootstrap.Custom(ResolveFn) && w.reg.root.Some?
  }

  /** Away from 'Scopes.Root', an initialised world resolves a key by
      calling the factory the lookup from the caller's start scope finds. */
  lemma ResolveCallsFound(w: State, ctx: Ctx, key: Key, f: Factory, args: seq<Arg>)
    requires Ready(w) && key != RootKey
    requires Lookup(w.reg.store, StartScope(w.reg, ctx).value, key) == Ok(f)
    ensures Resolve(w, ctx, key, args) == Call(w, ctx, f, args)
  {
    assert StrategyResolve(w.reg, ctx, key) == Ok(Found(f));
  }

  /** The first initialisation from a fresh process installs the strategy,
      creates root with the six built-ins and makes it the caller's scope. */
  lemma InitFromScratch(ctx: Ctx)
    ensures InitScopes(Empty, ctx) ==
              Ok(State(Bootstrap.Custom(ResolveFn),
                       Registry(Some(0), [Scope(Some(RootId), RootDeps, None)], map[ctx := Some(0)]),
                       map[RootId := 0]))
    ensures Ready(InitScopes(Empty, ctx).value)
  {
  }

  /** Initialising again, from any context, changes nothing. */
  lemma InitIdempotent(w: State, ctx: Ctx, ctx': Ctx)
    requires Valid(w) && InitScopes(w, ctx).Ok?
    ensures InitScopes(InitScopes(w, ctx).value, ctx') == InitScopes(w, ctx)
  {
  }

  /** 'Scopes.Root' answers root from every context, whatever its current scope. */
  lemma RootFromAnywhere(w: State, ctx: Ctx, args: seq<Arg>)
    requires Ready(w)
    ensures Resolve(w, ctx, RootKey, args) == Ok(Effect(ScopeObj(Some(0)), w))
  {
  }

  /** Any other key is looked up from the caller's current scope, or from
      root when the caller never set one; the nearest definition on that
      scope's chain wins. */
  lemma ResolveFollowsChain(w: State, ctx: Ctx, key: Key, v: Value)
    requires Ready(w) && key != RootKey
    ensures var start := if ctx in w.reg.current then w.reg.current[ctx].value else 0;
            && (Lookup(w.reg.store, start, key) == Ok(Const(v)) ==> Resolve(w, ctx, key, []) == Ok(Effect(Plain(v), w)))
            && (Lookup(w.reg.store, start, key).Err? ==> Resolve(w, ctx, key, []) == Err(UnknownDependency(key)))
  {
  }

  /** Once the scope strategy is installed there is no way back through the
      container: 'IoC.SetupStrategy' is an unknown dependency unless some
      scope on the caller's chain registered it. */
  lemma NoSetupAfterInstall(w: State, ctx: Ctx, args: seq<Arg>)
    requires Ready(w)
    requires forall i :: 0 <= i < |w.reg.store| ==> Bootstrap.SetupKey !in w.reg.store[i].deps
    ensures Resolve(w, ctx, Bootstrap.SetupKey, args) == Err(UnknownDependency(Bootstrap.SetupKey))
  {
    var start := StartScope(w.reg, ctx).value;
    LookupFindsNearest(w.reg.store, start, Bootstrap.SetupKey);
  }

  /** A new scope named after an existing parent id: it is that scope's
      child, starts empty (so answers exactly as the parent does), and only
      the new id enters the table. */
  lemma NewScopeUnderId(w: State, ctx: Ctx, id: string, parentId: string)
    requires Valid(w) && parentId != "" && parentId in w.ids && id !in w.ids
    ensures NewScope(w, ctx, [Str(id), Str(parentId)]).Ok?
    ensures var w' := NewScope(w, ctx, [Str(id), Str(parentId)]).value.world;
            && w'.ids == w.ids[id := |w.reg.store|]
            && w'.reg.store[|w.reg.store|] == Scope(Some(id), map[], Some(w.ids[parentId]))
            && (forall key :: Lookup(w'.reg.store, |w.reg.store|, key) == Lookup(w.reg.store, w.ids[parentId], key))
  {
    var w' := NewScope(w, ctx, [Str(id), Str(parentId)]).value.world;
    AppendedScopeInherits(w.reg, Some(id), w.ids[parentId]);
    assert w'.reg == Append(w.reg, Some(id), Some(w.ids[parentId]));
  }

  /** The parent is checked before the id: with no parent to be found the
      error is 'Cannot identify parent scope!' even for a duplicate id, and
      with a parent a duplicate id is refused; either way nothing changes. */
  lemma NewScopeRefusals(w: State, ctx: Ctx, id: string, parentId: string)
    requires Valid(w) && parentId != ""
    ensures parentId !in w.ids ==> NewScope(w, ctx, [Str(id), Str(parentId)]) == Err(NoParentScope)
    ensures parentId in w.ids && id in w.ids ==> NewScope(w, ctx, [Str(id), Str(parentId)]) == Err(ScopeExists(id))
  {
  }

  /** Ids follow Python's rules: a false parent id means the caller's current
      scope, exactly as if none was given; a true parent id that is not a
      string names no scope; and since the table only holds string ids,
      'Scopes.Current.Set' with any other hashable value is a KeyError. */
  lemma NonStringIds(w: State, ctx: Ctx, id: string, a: Arg)
    requires Valid(w)
    ensures !ArgTruthy(a) ==> NewScope(w, ctx, [Str(id), a]) == NewScope(w, ctx, [Str(id)])
    ensures ArgTruthy(a) && Hashable(a) && !a.Str? ==> NewScope(w, ctx, [Str(id), a]) == Err(NoParentScope)
    ensures Hashable(a) && !a.Str? ==> Call(w, ctx, Builtin(ScopesCurrentSet), [a]) == Err(UnknownScopeKey)
  {
  }

  /** 'Scopes.Current.Set' looks the id up when it is resolved: an unknown id
      is a KeyError, and the command it gives changes only the caller's slot. */
  lemma SetCurrentById(w: State, ctx: Ctx, id: string, other: Ctx)
    requires Valid(w) && other != ctx
    ensures id !in w.ids ==> Call(w, ctx, Builtin(ScopesCurrentSet), [Str(id)]) == Err(UnknownScopeId(id))
    ensures id in w.ids ==>
              && Call(w, ctx, Builtin(ScopesCurrentSet), [Str(id)]) == Ok(Effect(Command(SetCurrentCmd(Some(w.ids[id]))), w))
              && var w' := Execute(w, ctx, SetCurrentCmd(Some(w.ids[id]))).value;
              && CurrentScope(w'.reg, ctx) == Some(w.ids[id])
              && CurrentScope(w'.reg, other) == CurrentScope(w.reg, other)
              && w'.reg.store == w.reg.store && w'.ids == w.ids
  {
  }

  /** 'Scopes.Clear' forgets every id but 'ROOT' and nothing else: every
      scope object keeps its parent, so every context resolves every key as
      before; root can still be named, and a forgotten id can be reused. */
  lemma ClearForgetsIdsOnly(w: State, ctx: Ctx, other: Ctx, key: Key, id: string)
    requires Valid(w) && w.reg.root.Some? && id != RootId
    ensures var w' := Execute(w, ctx, ClearCmd).value;
            && w'.ids == map[RootId := 0]
            && w'.reg == w.reg
            && StrategyResolve(w'.reg, other, key) == StrategyResolve(w.reg, other, key)
            && NewScope(w', other, [Str(id), Str(RootId)]).Ok?
  {
  }

  /** Where 'Scopes.Current.Set' still means the built-in, resolving it with
      a known id and executing the command makes that scope the caller's. */
  lemma ResolveSetCurrent(w: State, ctx: Ctx, id: string)
    requires Ready(w) && id in w.ids
    requires Lookup(w.reg.store, StartScope(w.reg, ctx).value, "Scopes.Current.Set") == Ok(Builtin(ScopesCurrentSet))
    ensures ResolveAndExecute(w, ctx, "Scopes.Current.Set", [Str(id)]) == Ok(w.(reg := SetCurrent(w.reg, ctx, Some(w.ids[id]))))
  {
    assert StrategyResolve(w.reg, ctx, "Scopes.Current.Set") == Ok(Found(Builtin(ScopesCurrentSet)));
    assert Call(w, ctx, Builtin(ScopesCurrentSet), [Str(id)]) == Ok(Effect(Command(SetCurrentCmd(Some(w.ids[id]))), w));
    assert Resolve(w, ctx, "Scopes.Current.Set", [Str(id)]) == Ok(Effect(Command(SetCurrentCmd(Some(w.ids[id]))), w));
  }

  /** Where 'IoC.Register' still means the built-in, resolving it hands out
      the registration command and changes nothing. */
  lemma ResolveRegisterCommand(w: State, ctx: Ctx, key: Key, v: Value)
    requires Ready(w) && ctx in w.reg.current
    requires Lookup(w.reg.store, w.reg.current[ctx].value, "IoC.Register") == Ok(Builtin(IoCRegister))
    ensures Resolve(w, ctx, "IoC.Register", [Str(key), Val(v)]) == Ok(Effect(Command(RegisterCmd(key, v)), w))
  {
  }

  /** Registering through the container and resolving back: the caller's
      current scope gains the key, the caller then resolves the registered
      value, and a second registration of the key in that scope is refused. */
  lemma RegisterThroughContainer(w: State, ctx: Ctx, key: Key, v: Value, v2: Value)
    requires Ready(w) && ctx in w.reg.current && key != RootKey && key != "IoC.Register"
    requires Lookup(w.reg.store, w.reg.current[ctx].value, "IoC.Register") == Ok(Builtin(IoCRegister))
    requires key !in w.reg.store[w.reg.current[ctx].value].deps
    ensures ResolveAndExecute(w, ctx, "IoC.Register", [Str(key), Val(v)]).Ok?
    ensures var w' := ResolveAndExecute(w, ctx, "IoC.Register", [Str(key), Val(v)]).value;
            && Resolve(w', ctx, key, []) == Ok(Effect(Plain(v), w'))
            && ResolveAndExecute(w', ctx, "IoC.Register", [Str(key), Val(v2)]) == Err(AlreadyRegistered(key))
  {
    var s := w.reg.current[ctx].value;
    ResolveRegisterCommand(w, ctx, key, v);
    var reg' := Register(w.reg, ctx, key, v).value;
    var w' := w.(reg := reg');
    assert ResolveAndExecute(w, ctx, "IoC.Register", [Str(key), Val(v)]) == Ok(w');
    assert reg'.store == Define(w.reg.store, s, key, Const(v)).value;
    DefineLeavesOtherKeys(w.reg.store, s, key, Const(v), s, "IoC.Register");
    assert Ready(w');
    assert w'.reg.current == w.reg.current;
    ResolveFollowsChain(w', ctx, key, v);
    ResolveRegisterCommand(w', ctx, key, v2);
  }
}
