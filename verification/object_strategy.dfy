/** The object-passing hierarchical strategy of iocs/scope_based/strategy.py
    wired into the bootstrap container. Scopes carry no id: callers pass
    scope objects (or None) to 'Scopes.New' and 'Scopes.Current.Set', so a
    scope may have no parent and a slot may be set to None. There is no id
    table and no 'Scopes.Clear'.

    The built-in closures installed in the root scope are modelled by calling
    their models directly. */
module ObjectStrategy {
  import opened Errors
  import opened Scopes
  import Bootstrap

  /** The dependency map the initialisation command gives the root scope. */
  const RootDeps: map<Key, Factory> := map[
    "Scopes.Storage" := Builtin(ScopesStorage),
    "Scopes.New" := Builtin(ScopesNew),
    "Scopes.Current" := Builtin(ScopesCurrent),
    "Scopes.Current.Set" := Builtin(ScopesCurrentSet),
    "IoC.Register" := Builtin(IoCRegister)]

  datatype State = State(ioc: Bootstrap.Installed<Arg>, reg: Registry)

  /** Before initialisation nothing exists; afterwards root is the first
      scope, has no parent and keeps its built-ins; no scope of this variant
      ever holds the id-table closure 'Scopes.Clear'. */
  predicate Valid(w: State) {
    && Scopes.Valid(w.reg)
    && (w.reg.root.None? ==> w.reg.store == [] && w.reg.current == map[])
    && (w.reg.root.Some? ==>
          && w.reg.root.value == 0 && |w.reg.store| > 0
          && w.reg.store[0].parent.None?
          && RootDeps.Items <= w.reg.store[0].deps.Items)
    && (forall i, k :: 0 <= i < |w.reg.store| && k in w.reg.store[i].deps ==>
          w.reg.store[i].deps[k] != Builtin(ScopesClear))
  }

  /** A resolve's value together with the state it leaves behind. */
  datatype Effect = Effect(value: Resolved, world: State)

  /** A command is executable in `w` when the scope it targets exists (the
      strategy hands out scope commands only once root exists); this variant
      hands out no 'Scopes.Clear' command. */
  predicate CmdOk(w: State, cmd: Cmd) {
    match cmd
    case SetCurrentCmd(t) => w.reg.root.Some? && (t.Some? ==> t.value < |w.reg.store|)
    case ClearCmd => false
    case _ => true
  }

  predicate EffectOk(w: State, e: Effect) {
    && Valid(e.world)
    && e.world.ioc == w.ioc
    && e.world.reg.root == w.reg.root
    && |w.reg.store| <= |e.world.reg.store|
    && (e.value.Command? ==> CmdOk(e.world, e.value.cmd) && !e.value.cmd.SetupCmd?)
    && (e.value.ScopeObj? && e.value.scope.Some? ==> e.value.scope.value < |e.world.reg.store|)
  }

  /** The 'Scopes.New' closure: a fresh scope with an empty map whose parent
      is the scope object passed. `Scope.resolve` only follows a true parent,
      so a false value (None, '', 0, ...) gives a scope without a parent. */
  function NewScope(w: State, args: seq<Arg>): (r: Result<Effect>)
    requires Valid(w) && w.reg.root.Some? && ArgsOk(w.reg.store, args)
    ensures r.Ok? ==> EffectOk(w, r.value)
    ensures r.Ok? <==> |args| == 1 && (args[0].ScopeArg? || !ArgTruthy(args[0]))
    ensures r.Ok? ==>
              var parent := if args[0].ScopeArg? then Some(args[0].scope) else None;
              && r.value.value == ScopeObj(Some(|w.reg.store|))
              && r.value.world == w.(reg := w.reg.(store := w.reg.store + [Scope(None, map[], parent)]))
  {
    if |args| != 1 then Err(ArgumentType)
    else
      var parent :- match args[0]
        case ScopeArg(p) => Ok(Some(p))
        case other => if ArgTruthy(other) then Err(ArgumentType) else Ok(None);
      var w' := w.(reg := Append(w.reg, None, parent));
      assert Valid(w') by {
        forall i | 0 <= i < |w.reg.store| ensures w'.reg.store[i] == w.reg.store[i] { }
      }
      Ok(Effect(ScopeObj(Some(|w.reg.store|)), w'))
  }

  /** A scope made from a false value has no parent, and its map starts
      empty, so it answers no key at all. */
  lemma NewScopeFromFalseValue(w: State, a: Arg, key: Key)
    requires Valid(w) && w.reg.root.Some? && !ArgTruthy(a)
    ensures ArgsOk(w.reg.store, [a]) && NewScope(w, [a]).Ok?
    ensures var w' := NewScope(w, [a]).value.world;
            Lookup(w'.reg.store, |w.reg.store|, key) == Err(UnknownDependency(key))
  {
  }

  /** Calling the factory the lookup found with the caller's arguments. */
  function Call(w: State, ctx: Ctx, f: Factory, args: seq<Arg>): (r: Result<Effect>)
    requires Valid(w) && w.reg.root.Some? && ArgsOk(w.reg.store, args) && f != Builtin(ScopesClear)
    ensures r.Ok? ==> EffectOk(w, r.value)
    ensures f.Const? ==> r == Ok(Effect(Plain(f.v), w))
    ensures r.Ok? && !(f == Builtin(ScopesNew)) ==> r.value.world == w
  {
    match f
    case Const(v) => Ok(Effect(Plain(v), w))
    case Builtin(op) =>
      match op
      case ScopesStorage => if |args| == 0 then Ok(Effect(FreshStorage, w)) else Err(ArgumentType)
      case ScopesNew => NewScope(w, args)
      case ScopesCurrent => if |args| == 0 then Ok(Effect(ScopeObj(CurrentScope(w.reg, ctx)), w)) else Err(ArgumentType)
      case ScopesCurrentSet =>
        if |args| != 1 then Err(ArgumentType)
        else (
          match args[0]
          case ScopeArg(s) => Ok(Effect(Command(SetCurrentCmd(Some(s))), w))
          case Nil => Ok(Effect(Command(SetCurrentCmd(None)), w))
          case _ => Err(ArgumentType))
      case IoCRegister =>
        if |args| == 2 && args[0].Str? && args[1].Val? then Ok(Effect(Command(RegisterCmd(args[0].s, args[1].v)), w))
        else Err(ArgumentType)
  }

  /** The strategy's `resolve` classmethod, installed as `IoC.strategy`;
      any other installed value is not callable. */
  function Apply(w: State, ctx: Ctx, x: Arg, key: Key, args: seq<Arg>): (r: Result<Bootstrap.Reply<Arg, Effect>>)
    requires Valid(w) && ArgsOk(w.reg.store, args)
    ensures r.Ok? ==> r.value.Answer? && EffectOk(w, r.value.answer)
    ensures !x.ResolveFn? ==> r == Err(NotCallable)
  {
    if !x.ResolveFn? then Err(NotCallable)
    else match StrategyResolve(w.reg, ctx, key)
      case Err(e) => Err(e)
      case Ok(RootScope(root)) => Ok(Bootstrap.Answer(Effect(ScopeObj(root), w)))
      case Ok(Found(f)) =>
        LookupNeverFinds(w.reg.store, StartScope(w.reg, ctx).value, key, Builtin(ScopesClear));
        match Call(w, ctx, f, args)
        case Err(e) => Err(e)
        case Ok(eff) => Ok(Bootstrap.Answer(eff))
  }

  /** `IoC.resolve(key, *args)` called from context `ctx`. */
  function Resolve(w: State, ctx: Ctx, key: Key, args: seq<Arg>): (r: Result<Effect>)
    requires Valid(w) && ArgsOk(w.reg.store, args)
    ensures r.Ok? && w.ioc.Custom? ==> EffectOk(w, r.value)
    ensures r.Ok? ==> Valid(r.value.world) && r.value.world.ioc == w.ioc && r.value.world.reg.root == w.reg.root
    ensures r.Ok? ==> |w.reg.store| <= |r.value.world.reg.store|
    ensures w.ioc.DefaultStrategy? ==> (r.Ok? <==> key == Bootstrap.SetupKey && |args| > 0)
  {
    match w.ioc
    case DefaultStrategy =>
      if key == Bootstrap.SetupKey && |args| > 0 then Ok(Effect(Command(SetupCmd(args[0])), w))
      else if key == Bootstrap.SetupKey then Err(MissingArgument)
      else Err(UnknownDependency(key))
    case Custom(x) =>
      match Apply(w, ctx, x, key, args)
      case Ok(reply) => Ok(reply.answer)
      case Err(e) => Err(e)
  }

  /** The resolve above is the container's `IoC.resolve` with this
      strategy's `resolve` installed as the callable. */
  lemma ResolveThroughContainer(w: State, ctx: Ctx, key: Key, args: seq<Arg>)
    requires Valid(w) && ArgsOk(w.reg.store, args)
    ensures var apply := (x: Arg, k: Key, a: seq<Arg>) requires Valid(w) && ArgsOk(w.reg.store, a) => Apply(w, ctx, x, k, a);
            Resolve(w, ctx, key, args) ==
              match Bootstrap.Resolve(w.ioc, apply, key, args)
              case Err(e) => Err(e)
              case Ok(reply) =>
                if reply.SetupCommand? then Ok(Effect(Command(SetupCmd(reply.newStrategy)), w)) else Ok(reply.answer)
  {
  }

  /** `execute()` of a command the strategy handed out, run by context `ctx`. */
  function Execute(w: State, ctx: Ctx, cmd: Cmd): (r: Result<State>)
    requires Valid(w) && CmdOk(w, cmd)
    ensures r.Ok? ==> Valid(r.value) && r.value.reg.root == w.reg.root
    ensures r.Ok? ==> |r.value.reg.store| == |w.reg.store|
    ensures cmd.SetCurrentCmd? ==> r == Ok(w.(reg := SetCurrent(w.reg, ctx, cmd.target)))
    ensures cmd.RegisterCmd? ==>
              match Register(w.reg, ctx, cmd.key, cmd.v)
              case Ok(reg') => r == Ok(w.(reg := reg'))
              case Err(e) => r == Err(e)
    ensures cmd.SetupCmd? ==> r == Ok(w.(ioc := Bootstrap.ExecuteSetup(w.ioc, cmd.strategy)))
  {
    match cmd
    case SetCurrentCmd(t) => Ok(w.(reg := SetCurrent(w.reg, ctx, t)))
    case RegisterCmd(key, v) =>
      var reg' :- Register(w.reg, ctx, key, v);
      assert Valid(w.(reg := reg')) by {
        if w.reg.root.Some? {
          assert reg'.store[0].deps.Items >= w.reg.store[0].deps.Items by {
            if w.reg.current[ctx].value == 0 {
              assert key !in w.reg.store[0].deps;
            }
          }
        }
        forall i, k | 0 <= i < |reg'.store| && k in reg'.store[i].deps
          ensures reg'.store[i].deps[k] != Builtin(ScopesClear)
        {
          if i != w.reg.current[ctx].value || k != key {
            assert k in w.reg.store[i].deps && reg'.store[i].deps[k] == w.reg.store[i].deps[k];
          }
        }
      }
      Ok(w.(reg := reg'))
    case SetupCmd(x) => Ok(w.(ioc := Bootstrap.ExecuteSetup(w.ioc, x)))
  }

  /** `IoC.resolve(key, *args).execute()`: resolve a command and execute it
      in the state the resolve left behind; a non-command has no `execute`. */
  function ResolveAndExecute(w: State, ctx: Ctx, key: Key, args: seq<Arg>): (r: Result<State>)
    requires Valid(w) && ArgsOk(w.reg.store, args)
    ensures r.Ok? ==> Valid(r.value) && r.value.reg.root == w.reg.root
    ensures r.Ok? && w.ioc.Custom? ==> r.value.ioc == w.ioc
    ensures r.Ok? ==> Resolve(w, ctx, key, args).Ok? && Resolve(w, ctx, key, args).value.value.Command?
  {
    var eff :- Resolve(w, ctx, key, args);
    if !eff.value.Command? then Err(NotACommand)
    else
      Execute(eff.world, ctx, eff.value.cmd)
  }

  /** The state of a process that has not run the initialisation command. */
  const Empty: State := State(Bootstrap.DefaultStrategy, Registry(None, [], map[]))

  /** `InitScopesCommand().execute()` run by context `ctx`: does nothing once
      root exists; otherwise installs the strategy through the container,
      creates root with the built-ins, and makes root the caller's current scope. */
  function InitScopes(w: State, ctx: Ctx): (r: Result<State>)
    requires Valid(w)
    ensures r.Ok? ==> Valid(r.value)
    ensures w.reg.root.Some? ==> r == Ok(w)
    ensures w.reg.root.None? && r.Ok? ==>
              && r.value.reg == Registry(Some(0), [Scope(None, RootDeps, None)], map[ctx := Some(0)])
              && r.value.ioc == Bootstrap.Custom(ResolveFn)
    ensures w.reg.root.None? ==> (r.Ok? <==> w.ioc.DefaultStrategy?)
  {
    if w.reg.root.Some? then Ok(w)
    else
      var setup :- Resolve(w, ctx, Bootstrap.SetupKey, [ResolveFn]);
      if !setup.value.Command? then Err(NotACommand)
      else match Execute(setup.world, ctx, setup.value.cmd)
        case Err(e) => Err(e)
        case Ok(w1) =>
          Ok(w1.(reg := w1.reg.(root := Some(0), store := [Scope(None, RootDeps, None)],
                                current := w1.reg.current[ctx := Some(0)])))
  }

  /** The strategy is installed and initialised. */
  predicate Ready(w: State) {
    Valid(w) && w.ioc == Bootstrap.Custom(ResolveFn) && w.reg.root.Some?
  }

  /** The first initialisation from a fresh process installs the strategy,
      creates root with the five built-ins and makes it the caller's scope. */
  lemma InitFromScratch(ctx: Ctx)
    ensures InitScopes(Empty, ctx) ==
              Ok(State(Bootstrap.Custom(ResolveFn), Registry(Some(0), [Scope(None, RootDeps, None)], map[ctx := Some(0)])))
    ensures Ready(InitScopes(Empty, ctx).value)
  {
  }

  /** Initialising again, from any context, changes nothing. */
  lemma InitIdempotent(w: State, ctx: Ctx, ctx': Ctx)
    requires Valid(w) && InitScopes(w, ctx).Ok?
    ensures InitScopes(InitScopes(w, ctx).value, ctx') == InitScopes(w, ctx)
  {
  }

  /** Right after initialisation the initialising context's current scope is
      root; another context's slot is still unset, so 'Scopes.Current'
      answers None there while its lookups start from root. */
  lemma CurrentAfterInit(ctx: Ctx, other: Ctx, key: Key)
    requires other != ctx && key != RootKey
    ensures var w := InitScopes(Empty, ctx).value;
            && Resolve(w, ctx, "Scopes.Current", []) == Ok(Effect(ScopeObj(Some(0)), w))
            && Resolve(w, ctx, RootKey, []) == Ok(Effect(ScopeObj(Some(0)), w))
            && Resolve(w, other, "Scopes.Current", []) == Ok(Effect(ScopeObj(None), w))
            && StrategyResolve(w.reg, other, key) == StrategyResolve(w.reg, ctx, key)
  {
    InitFromScratch(ctx);
  }

  /** 'Scopes.New' with a parent scope gives a scope distinct from it,
      with an empty map, that answers every key exactly as the parent does. */
  lemma NewScopeIsFreshChild(w: State, parent: ScopeRef)
    requires Valid(w) && w.reg.root.Some? && parent < |w.reg.store|
    ensures NewScope(w, [ScopeArg(parent)]).Ok?
    ensures var e := NewScope(w, [ScopeArg(parent)]).value;
            && e.value == ScopeObj(Some(|w.reg.store|)) && |w.reg.store| != parent
            && e.world.reg.store[|w.reg.store|] == Scope(None, map[], Some(parent))
            && forall key :: Lookup(e.world.reg.store, |w.reg.store|, key) == Lookup(w.reg.store, parent, key)
  {
    AppendedScopeInherits(w.reg, None, parent);
    assert NewScope(w, [ScopeArg(parent)]).value.world.reg == Append(w.reg, None, Some(parent));
  }
}
