/** What the two hierarchical strategies (iocs/scope_based_strategy.py and
    iocs/scope_based/strategy.py) share: `Scope.resolve`, the strategy's
    `resolve`, `SetCurrentScopeCommand` and `RegisterIoCDependencyCommand`.

    Scope objects live in an append-only store and are referred to by their
    position in it; a parent is always created before its children, so its
    position is smaller, which is what makes the walk up the parent chain
    terminate. The per-thread `threading.local` slot becomes a map from
    execution context to slot contents; a context absent from the map has
    never set its slot. */
module Scopes {
  import opened Errors
  import GameCommands

  type Key = string
  type ScopeRef = nat
  /** An execution context (a thread). */
  type Ctx = nat

  const RootKey: Key := "Scopes.Root"

  /** The values dependencies produce. Factories registered by callers are
      modelled as constant factories; `Opaque` stands for objects the model
      does not look into (queues, threads, handlers, adapters). */
  datatype Value =
    | Flag(b: bool)
    | Num(n: int)
    | Names(names: seq<Key>)
    | CommandOf(cmd: GameCommands.GameCmd)
    | Opaque(what: string)

  /** Python truthiness of a value. */
  predicate Truthy(v: Value) {
    match v
    case Flag(b) => b
    case Num(n) => n != 0
    case Names(ns) => |ns| > 0
    case CommandOf(_) => true
    case Opaque(_) => true
  }

  /** A positional argument of `IoC.resolve`: a string (a key or a scope
      id), `None`, a value, a scope object, or the strategy's own `resolve`. */
  datatype Arg = Str(s: string) | Nil | Val(v: Value) | ScopeArg(scope: ScopeRef) | ResolveFn

  /** Python truthiness of an argument: scope objects and functions define
      neither `__bool__` nor `__len__`, so they are always true. */
  predicate ArgTruthy(a: Arg) {
    match a
    case Str(s) => s != ""
    case Nil => false
    case Val(v) => Truthy(v)
    case ScopeArg(_) => true
    case ResolveFn => true
  }

  /** Whether an argument can be a dictionary key: a list of names cannot. */
  predicate Hashable(a: Arg) {
    !(a.Val? && a.v.Names?)
  }

  predicate ArgsOk(store: seq<Scope>, args: seq<Arg>) {
    forall i :: 0 <= i < |args| && args[i].ScopeArg? ==> args[i].scope < |store|
  }

  /** The commands the strategy hands out; `execute` is each world's `Execute`. */
  datatype Cmd =
    | SetCurrentCmd(target: Option<ScopeRef>)
    | RegisterCmd(key: Key, v: Value)
    | ClearCmd
    | SetupCmd(strategy: Arg)

  /** What `IoC.resolve` returns. */
  datatype Resolved =
    | Plain(v: Value)
    | ScopeObj(scope: Option<ScopeRef>)
    /** the fresh `{}` of 'Scopes.Storage' */
    | FreshStorage
    | Command(cmd: Cmd)

  /** The closures the initialisation command installs in the root scope. */
  datatype Builtin = ScopesStorage | ScopesNew | ScopesClear | ScopesCurrent | ScopesCurrentSet | IoCRegister

  datatype Factory = Const(v: Value) | Builtin(op: Builtin)

  /** `Scope`: an id (only in the id-keyed variant), the dependency map and an optional parent. */
  datatype Scope = Scope(id: Option<string>, deps: map<Key, Factory>, parent: Option<ScopeRef>)

  /** The state of `HierarchicalScopeBasedDependencyStrategy`: its `root`
      attribute, its `current_scopes` slots, and every scope object created. */
  datatype Registry = Registry(root: Option<ScopeRef>, store: seq<Scope>, current: map<Ctx, Option<ScopeRef>>)

  predicate ParentsBelow(store: seq<Scope>) {
    forall i :: 0 <= i < |store| && store[i].parent.Some? ==> store[i].parent.value < i
  }

  /** Every reference the registry holds names an existing scope. */
  predicate Valid(reg: Registry) {
    && ParentsBelow(reg.store)
    && (reg.root.Some? ==> reg.root.value < |reg.store|)
    && (forall c :: c in reg.current && reg.current[c].Some? ==> reg.current[c].value < |reg.store|)
  }

  /** `Scope.resolve`: the scope's own entry, else the parent's answer, else KeyError. */
  function Lookup(store: seq<Scope>, s: ScopeRef, key: Key): (r: Result<Factory>)
    requires ParentsBelow(store) && s < |store|
    ensures r.Err? ==> r.error == UnknownDependency(key)
    ensures key in store[s].deps ==> r == Ok(store[s].deps[key])
    decreases s
  {
    if key in store[s].deps then Ok(store[s].deps[key])
    else match store[s].parent
      case Some(p) => Lookup(store, p, key)
      case None => Err(UnknownDependency(key))
  }

  /** The parent chain of `s`, nearest first: the independent description of
      where a lookup may look. */
  function Chain(store: seq<Scope>, s: ScopeRef): (c: seq<ScopeRef>)
    requires ParentsBelow(store) && s < |store|
    ensures |c| > 0 && c[0] == s
    ensures forall i :: 0 <= i < |c| ==> c[i] <= s
    ensures forall i :: 0 < i < |c| ==> store[c[i - 1]].parent == Some(c[i])
    ensures store[c[|c| - 1]].parent.None?
    decreases s
  {
    match store[s].parent
    case None => [s]
    case Some(p) => [s] + Chain(store, p)
  }

  /** `Scope.resolve` answers from the nearest scope on the chain that
      defines the key, and raises only when none does. */
  lemma LookupFindsNearest(store: seq<Scope>, s: ScopeRef, key: Key)
    requires ParentsBelow(store) && s < |store|
    ensures Lookup(store, s, key).Ok? <==>
              exists i :: 0 <= i < |Chain(store, s)| && key in store[Chain(store, s)[i]].deps
    ensures Lookup(store, s, key).Ok? ==>
              exists i :: && 0 <= i < |Chain(store, s)| && key in store[Chain(store, s)[i]].deps
                          && Lookup(store, s, key).value == store[Chain(store, s)[i]].deps[key]
                          && forall j :: 0 <= j < i ==> key !in store[Chain(store, s)[j]].deps
  {
    if Lookup(store, s, key).Ok? {
      LookupOkIsNearest(store, s, key);
    } else {
      LookupErrDefinesNone(store, s, key);
    }
  }

  /** A factory that no scope of the store holds is never found. */
  lemma {:induction false} LookupNeverFinds(store: seq<Scope>, s: ScopeRef, key: Key, f: Factory)
    requires ParentsBelow(store) && s < |store|
    requires forall i, k :: 0 <= i < |store| && k in store[i].deps ==> store[i].deps[k] != f
    ensures Lookup(store, s, key) != Ok(f)
    decreases s
  {
    if key !in store[s].deps && store[s].parent.Some? {
      LookupNeverFinds(store, store[s].parent.value, key, f);
    }
  }

  /** A successful lookup names the nearest scope of the chain defining the key. */
  lemma {:induction false} LookupOkIsNearest(store: seq<Scope>, s: ScopeRef, key: Key)
    requires ParentsBelow(store) && s < |store| && Lookup(store, s, key).Ok?
    ensures exists i :: && 0 <= i < |Chain(store, s)| && key in store[Chain(store, s)[i]].deps
                        && Lookup(store, s, key).value == store[Chain(store, s)[i]].deps[key]
                        && forall j :: 0 <= j < i ==> key !in store[Chain(store, s)[j]].deps
    decreases s
  {
    var c := Chain(store, s);
    if key in store[s].deps {
      assert c[0] == s;
      assert key in store[c[0]].deps && Lookup(store, s, key).value == store[c[0]].deps[key];
    } else {
      var p := store[s].parent.value;
      LookupOkIsNearest(store, p, key);
      var cp := Chain(store, p);
      assert c == [s] + cp;
      var i :| && 0 <= i < |cp| && key in store[cp[i]].deps
               && Lookup(store, p, key).value == store[cp[i]].deps[key]
               && forall j :: 0 <= j < i ==> key !in store[cp[j]].deps;
      assert c[i + 1] == cp[i];
      forall j | 0 <= j < i + 1
        ensures key !in store[c[j]].deps
      {
        if j > 0 {
          assert c[j] == cp[j - 1];
        }
      }
    }
  }

  /** A failed lookup means no scope of the chain defines the key. */
  lemma {:induction false} LookupErrDefinesNone(store: seq<Scope>, s: ScopeRef, key: Key)
    requires ParentsBelow(store) && s < |store| && Lookup(store, s, key).Err?
    ensures forall i :: 0 <= i < |Chain(store, s)| ==> key !in store[Chain(store, s)[i]].deps
    decreases s
  {
    var c := Chain(store, s);
    if store[s].parent.Some? {
      var p := store[s].parent.value;
      LookupErrDefinesNone(store, p, key);
      var cp := Chain(store, p);
      assert c == [s] + cp;
      forall i | 0 <= i < |c|
        ensures key !in store[c[i]].deps
      {
        if i > 0 {
          assert c[i] == cp[i - 1];
        }
      }
    } else {
      assert c == [s];
    }
  }

  /** A lookup depends only on the scopes of the chain: a store that agrees
      with this one on every scope of `s`'s chain answers every key alike.
      Scopes created later, and registrations elsewhere, are invisible. */
  lemma {:induction false} LookupDependsOnlyOnChain(store: seq<Scope>, store': seq<Scope>, s: ScopeRef)
    requires ParentsBelow(store) && ParentsBelow(store') && s < |store| && s < |store'|
    requires forall x :: x in Chain(store, s) ==> x < |store'| && store'[x] == store[x]
    ensures Chain(store', s) == Chain(store, s)
    ensures forall key :: Lookup(store', s, key) == Lookup(store, s, key)
    decreases s
  {
    assert s in Chain(store, s);
    match store[s].parent
    case None =>
    case Some(p) =>
      assert Chain(store, s) == [s] + Chain(store, p);
      LookupDependsOnlyOnChain(store, store', p);
  }

  /** `dependencies[key] = factory` on scope `s`, refused when the key is
      already there; a definition in an ancestor does not count. */
  function Define(store: seq<Scope>, s: ScopeRef, key: Key, f: Factory): (r: Result<seq<Scope>>)
    requires s < |store|
    ensures r.Err? <==> key in store[s].deps
    ensures r.Err? ==> r.error == AlreadyRegistered(key)
    ensures r.Ok? ==> && |r.value| == |store|
                      && r.value[s] == store[s].(deps := store[s].deps[key := f])
                      && forall i :: 0 <= i < |store| && i != s ==> r.value[i] == store[i]
  {
    if key in store[s].deps then Err(AlreadyRegistered(key))
    else Ok(store[s := store[s].(deps := store[s].deps[key := f])])
  }

  /** `get_current_scope`: the slot, or None when it was never set. */
  function CurrentScope(reg: Registry, ctx: Ctx): (r: Option<ScopeRef>)
    ensures ctx !in reg.current ==> r == None
    ensures r.Some? ==> ctx in reg.current && reg.current[ctx] == r
  {
    if ctx in reg.current then reg.current[ctx] else None
  }

  /** The scope a resolve starts from: the current one, or root when there is none. */
  function StartScope(reg: Registry, ctx: Ctx): (r: Option<ScopeRef>)
    ensures CurrentScope(reg, ctx).Some? ==> r == CurrentScope(reg, ctx)
    ensures CurrentScope(reg, ctx).None? ==> r == reg.root
  {
    match CurrentScope(reg, ctx)
    case Some(s) => Some(s)
    case None => reg.root
  }

  /** What the strategy's resolve hands back: the root scope for 'Scopes.Root',
      otherwise the factory found (calling it is the caller's business). */
  datatype Answer = RootScope(root: Option<ScopeRef>) | Found(f: Factory)

  /** `HierarchicalScopeBasedDependencyStrategy.resolve` for context `ctx`. */
  function StrategyResolve(reg: Registry, ctx: Ctx, key: Key): (r: Result<Answer>)
    requires Valid(reg)
    ensures key == RootKey ==> r == Ok(RootScope(reg.root))
    ensures key != RootKey && StartScope(reg, ctx).None? ==> r == Err(NoneAttribute)
    ensures key != RootKey && StartScope(reg, ctx).Some? ==>
              match Lookup(reg.store, StartScope(reg, ctx).value, key)
              case Ok(f) => r == Ok(Found(f))
              case Err(e) => r == Err(e)
  {
    if key == RootKey then Ok(RootScope(reg.root))
    else match StartScope(reg, ctx)
      case None => Err(NoneAttribute)
      case Some(s) =>
        match Lookup(reg.store, s, key)
        case Ok(f) => Ok(Found(f))
        case Err(e) => Err(e)
  }

  /** `SetCurrentScopeCommand(scope).execute()` run by context `ctx`. */
  function SetCurrent(reg: Registry, ctx: Ctx, s: Option<ScopeRef>): (r: Registry)
    ensures CurrentScope(r, ctx) == s && ctx in r.current
    ensures forall c :: c != ctx ==> CurrentScope(r, c) == CurrentScope(reg, c)
    ensures r.store == reg.store && r.root == reg.root
  {
    reg.(current := reg.current[ctx := s])
  }

  /** `RegisterIoCDependencyCommand(key, Const(v)).execute()` run by context
      `ctx`: reads the slot directly, so a slot never set raises
      AttributeError and an empty one raises 'unknown scope'. */
  function Register(reg: Registry, ctx: Ctx, key: Key, v: Value): (r: Result<Registry>)
    requires Valid(reg)
    ensures ctx !in reg.current ==> r == Err(SlotNeverSet)
    ensures ctx in reg.current && reg.current[ctx].None? ==> r == Err(UnknownScope)
    ensures ctx in reg.current && reg.current[ctx].Some? ==>
              (r.Err? <==> key in reg.store[reg.current[ctx].value].deps)
    ensures r.Err? && ctx in reg.current && reg.current[ctx].Some? ==> r.error == AlreadyRegistered(key)
    ensures r.Ok? ==>
              && ctx in reg.current && reg.current[ctx].Some?
              && var s := reg.current[ctx].value;
              && r.value == reg.(store := r.value.store)
              && |r.value.store| == |reg.store|
              && r.value.store[s].deps == reg.store[s].deps[key := Const(v)]
              && r.value.store[s].parent == reg.store[s].parent
              && forall i :: 0 <= i < |reg.store| && i != s ==> r.value.store[i] == reg.store[i]
    ensures r.Ok? ==> Valid(r.value)
  {
    if ctx !in reg.current then Err(SlotNeverSet)
    else match reg.current[ctx]
      case None => Err(UnknownScope)
      case Some(s) =>
        match Define(reg.store, s, key, Const(v))
        case Ok(store') => Ok(reg.(store := store'))
        case Err(e) => Err(e)
  }

  /** Defining one key changes no other key's lookup, from any scope. */
  lemma {:induction false} DefineLeavesOtherKeys(store: seq<Scope>, s: ScopeRef, key: Key, f: Factory,
                                                 t: ScopeRef, other: Key)
    requires ParentsBelow(store) && s < |store| && t < |store| && Define(store, s, key, f).Ok? && other != key
    ensures ParentsBelow(Define(store, s, key, f).value)
    ensures Lookup(Define(store, s, key, f).value, t, other) == Lookup(store, t, other)
    decreases t
  {
    var store' := Define(store, s, key, f).value;
    assert ParentsBelow(store') by {
      forall i | 0 <= i < |store'| && store'[i].parent.Some? ensures store'[i].parent.value < i {
        assert store'[i].parent == store[i].parent;
      }
    }
    assert store'[t].parent == store[t].parent;
    assert (other in store'[t].deps) == (other in store[t].deps);
    if other in store[t].deps {
      assert store'[t].deps[other] == store[t].deps[other];
    } else if store[t].parent.Some? {
      DefineLeavesOtherKeys(store, s, key, f, store[t].parent.value, other);
    }
  }

  /** A registration keeps every reference valid. */
  lemma RegisterKeepsValid(reg: Registry, ctx: Ctx, key: Key, v: Value)
    requires Valid(reg) && Register(reg, ctx, key, v).Ok?
    ensures Valid(Register(reg, ctx, key, v).value)
  {
    var r := Register(reg, ctx, key, v).value;
    forall i | 0 <= i < |r.store| && r.store[i].parent.Some?
      ensures r.store[i].parent.value < i
    {
      assert r.store[i].parent == reg.store[i].parent;
    }
  }

  /** Shadowing: right after registering, the registering context resolves
      the key to the new value, whatever its ancestors define. */
  lemma RegisterThenResolve(reg: Registry, ctx: Ctx, key: Key, v: Value)
    requires Valid(reg) && key != RootKey && Register(reg, ctx, key, v).Ok?
    ensures StrategyResolve(Register(reg, ctx, key, v).value, ctx, key) == Ok(Found(Const(v)))
  {
    RegisterKeepsValid(reg, ctx, key, v);
  }

  /** A registration is invisible from every context whose chain does not
      pass through the registering context's scope: parents do not see their
      children's keys, and siblings do not see each other's. */
  lemma RegisterInvisibleOffChain(reg: Registry, ctx: Ctx, key: Key, v: Value, other: Ctx)
    requires Valid(reg) && Register(reg, ctx, key, v).Ok?
    requires StartScope(reg, other).Some?
    requires reg.current[ctx].value !in Chain(reg.store, StartScope(reg, other).value)
    ensures forall k :: StrategyResolve(Register(reg, ctx, key, v).value, other, k) == StrategyResolve(reg, other, k)
  {
    var r := Register(reg, ctx, key, v).value;
    RegisterKeepsValid(reg, ctx, key, v);
    LookupDependsOnlyOnChain(reg.store, r.store, StartScope(reg, other).value);
  }

  /** Setting the current scope in one context changes no other context's resolution. */
  lemma SetCurrentIsolated(reg: Registry, ctx: Ctx, s: Option<ScopeRef>, other: Ctx, key: Key)
    requires Valid(reg) && (s.Some? ==> s.value < |reg.store|) && other != ctx
    ensures Valid(SetCurrent(reg, ctx, s))
    ensures StrategyResolve(SetCurrent(reg, ctx, s), other, key) == StrategyResolve(reg, other, key)
  {
  }

  /** A context whose slot was never set resolves against root. */
  lemma UnsetSlotUsesRoot(reg: Registry, ctx: Ctx, key: Key)
    requires Valid(reg) && ctx !in reg.current && reg.root.Some? && key != RootKey
    ensures StrategyResolve(reg, ctx, key) == StrategyResolve(reg.(current := reg.current[ctx := reg.root]), ctx, key)
  {
  }

  /** The scope `s` appended as a child of `parent`, with an empty map. */
  function Append(reg: Registry, id: Option<string>, parent: Option<ScopeRef>): (r: Registry)
    requires Valid(reg) && (parent.Some? ==> parent.value < |reg.store|)
    ensures Valid(r)
    ensures r.store == reg.store + [Scope(id, map[], parent)]
    ensures r.root == reg.root && r.current == reg.current
  {
    reg.(store := reg.store + [Scope(id, map[], parent)])
  }

  /** A new scope starts empty, so it answers every key as its parent does,
      and creating it changes no existing scope's answers. */
  lemma AppendedScopeInherits(reg: Registry, id: Option<string>, parent: ScopeRef)
    requires Valid(reg) && parent < |reg.store|
    ensures var r := Append(reg, id, Some(parent));
            forall key :: Lookup(r.store, |reg.store|, key) == Lookup(reg.store, parent, key)
    ensures var r := Append(reg, id, Some(parent));
            forall s: nat, key :: s < |reg.store| ==> Lookup(r.store, s, key) == Lookup(reg.store, s, key)
  {
    var r := Append(reg, id, Some(parent));
    forall s: nat, key | s < |reg.store|
      ensures Lookup(r.store, s, key) == Lookup(reg.store, s, key)
    {
      LookupDependsOnlyOnChain(reg.store, r.store, s);
    }
    forall key
      ensures Lookup(r.store, |reg.store|, key) == Lookup(reg.store, parent, key)
    {
      LookupDependsOnlyOnChain(reg.store, r.store, parent);
    }
  }

  /** A scope created after `s` is never on `s`'s chain. */
  lemma LaterScopesNotOnChain(store: seq<Scope>, s: ScopeRef, later: ScopeRef)
    requires ParentsBelow(store) && s < |store| && s < later
    ensures later !in Chain(store, s)
  {
  }

  /** A key registered in a scope created after the one a context starts
      from is invisible to that context: a parent never sees its children's
      keys, and a context never sees keys of scopes other contexts create
      later. */
  lemma RegisterInLaterScopeInvisible(reg: Registry, ctx: Ctx, key: Key, v: Value, other: Ctx)
    requires Valid(reg) && Register(reg, ctx, key, v).Ok?
    requires StartScope(reg, other).Some? && StartScope(reg, other).value < reg.current[ctx].value
    ensures forall k :: StrategyResolve(Register(reg, ctx, key, v).value, other, k) == StrategyResolve(reg, other, k)
  {
    LaterScopesNotOnChain(reg.store, StartScope(reg, other).value, reg.current[ctx].value);
    RegisterInvisibleOffChain(reg, ctx, key, v, other);
  }

  /** Shadowing: in a child scope a key its parent's chain defines can still
      be registered; the child then answers its own value, and switching the
      context back to the parent answers the parent's value again. */
  lemma ShadowThenSwitchBack(reg: Registry, ctx: Ctx, key: Key, v: Value, parent: ScopeRef)
    requires Valid(reg) && key != RootKey && ctx in reg.current && reg.current[ctx].Some?
    requires reg.store[reg.current[ctx].value].parent == Some(parent)
    requires key !in reg.store[reg.current[ctx].value].deps
    ensures Register(reg, ctx, key, v).Ok?
    ensures StrategyResolve(Register(reg, ctx, key, v).value, ctx, key) == Ok(Found(Const(v)))
    ensures var back := SetCurrent(Register(reg, ctx, key, v).value, ctx, Some(parent));
            StrategyResolve(back, ctx, key) ==
              match Lookup(reg.store, parent, key)
              case Ok(f) => Ok(Found(f))
              case Err(e) => Err(e)
  {
    var reg' := Register(reg, ctx, key, v).value;
    LookupDependsOnlyOnChain(reg.store, reg'.store, parent);
  }
}
