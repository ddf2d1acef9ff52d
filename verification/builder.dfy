/** `OperationBuilder.build` (features/base/builders.py) and the plugin
    commands of features/movement/commands.py, over the id-keyed container
    that the program's entry point initialises.

    An operation is described by the list of command names registered under
    '<operation>.Description'; building resolves each name with the game
    object and wraps the results in a MacroCommand. A registered factory is
    a constant here, so the command a name yields is whatever was registered
    under it; a resolved value that is not a command becomes `NoExecute`. */
module Builder {
  import opened Errors
  import opened Scopes
  import opened GameCommands
  import IdStrategy

  function DescriptionKey(operation: string): Key {
    operation + ".Description"
  }

  /** The command a resolved value stands for inside a MacroCommand. */
  function AsCommand(r: Resolved): GameCmd {
    if r.Plain? && r.v.CommandOf? then r.v.cmd else NoExecute
  }

  datatype Built = Built(cmds: seq<GameCmd>, world: IdStrategy.State)

  /** The list comprehension of `build`: each name resolved with `obj`, in
      order; the first resolve that raises ends the build. */
  function ResolveAll(w: IdStrategy.State, ctx: Ctx, names: seq<Key>, obj: Arg): (r: Result<Built>)
    requires IdStrategy.Valid(w)
    ensures r.Ok? ==> |r.value.cmds| == |names| && IdStrategy.Valid(r.value.world)
    ensures |names| > 0 ==>
              match IdStrategy.Resolve(w, ctx, names[0], [obj])
              case Err(e) => r == Err(e)
              case Ok(e) =>
                && (r.Ok? <==> ResolveAll(e.world, ctx, names[1..], obj).Ok?)
                && (r.Ok? ==> r.value.cmds[0] == AsCommand(e.value))
    decreases |names|
  {
    if |names| == 0 then Ok(Built([], w))
    else
      var first :- IdStrategy.Resolve(w, ctx, names[0], [obj]);
      var rest :- ResolveAll(first.world, ctx, names[1..], obj);
      Ok(Built([AsCommand(first.value)] + rest.cmds, rest.world))
  }

  /** `OperationBuilder(operation).build(obj)`: the description, then every
      command it names; the result is a MacroCommand that has not run. */
  function Build(w: IdStrategy.State, ctx: Ctx, operation: string, obj: Arg): (r: Result<(GameCmd, IdStrategy.State)>)
    requires IdStrategy.Valid(w)
    ensures r.Ok? ==> r.value.0.Macro?
    ensures r.Ok? ==>
              && IdStrategy.Resolve(w, ctx, DescriptionKey(operation), []).Ok?
              && var d := IdStrategy.Resolve(w, ctx, DescriptionKey(operation), []).value;
              && d.value.Plain? && d.value.v.Names?
              && |r.value.0.cmds| == |d.value.v.names|
    ensures IdStrategy.Resolve(w, ctx, DescriptionKey(operation), []).Err? ==>
              r == Err(IdStrategy.Resolve(w, ctx, DescriptionKey(operation), []).error)
  {
    var d :- IdStrategy.Resolve(w, ctx, DescriptionKey(operation), []);
    if !(d.value.Plain? && d.value.v.Names?) then Err(ArgumentType)
    else
      var built :- ResolveAll(d.world, ctx, d.value.v.names, obj);
      Ok((Macro(built.cmds), built.world))
  }

  /** Every name is registered as a constant on the caller's chain. */
  predicate AllConstant(w: IdStrategy.State, ctx: Ctx, names: seq<Key>)
    requires IdStrategy.Ready(w)
  {
    forall i :: 0 <= i < |names| ==>
      names[i] != RootKey && Lookup(w.reg.store, StartScope(w.reg, ctx).value, names[i]).Ok? &&
      Lookup(w.reg.store, StartScope(w.reg, ctx).value, names[i]).value.Const?
  }

  lemma AllConstantTail(w: IdStrategy.State, ctx: Ctx, names: seq<Key>)
    requires IdStrategy.Ready(w) && |names| > 0 && AllConstant(w, ctx, names)
    ensures AllConstant(w, ctx, names[1..])
  {
    forall i | 0 <= i < |names| - 1 ensures names[1..][i] == names[i + 1] { }
  }

  /** The command registered under a name that `AllConstant` covers. */
  function Registered(w: IdStrategy.State, ctx: Ctx, name: Key): GameCmd
    requires IdStrategy.Ready(w) && Lookup(w.reg.store, StartScope(w.reg, ctx).value, name).Ok?
  {
    var f := Lookup(w.reg.store, StartScope(w.reg, ctx).value, name).value;
    if f.Const? && f.v.CommandOf? then f.v.cmd else NoExecute
  }

  /** When every name is a registered constant, resolving them changes
      nothing and yields exactly the registered commands, in description order. */
  lemma {:induction false} ResolveAllRegistered(w: IdStrategy.State, ctx: Ctx, names: seq<Key>, obj: Arg)
    requires IdStrategy.Ready(w) && AllConstant(w, ctx, names)
    ensures ResolveAll(w, ctx, names, obj).Ok?
    ensures ResolveAll(w, ctx, names, obj).value.world == w
    ensures forall i :: 0 <= i < |names| ==> ResolveAll(w, ctx, names, obj).value.cmds[i] == Registered(w, ctx, names[i])
    decreases |names|
  {
    if |names| > 0 {
      var start := StartScope(w.reg, ctx).value;
      assert IdStrategy.Resolve(w, ctx, names[0], [obj]) ==
             Ok(IdStrategy.Effect(Plain(Lookup(w.reg.store, start, names[0]).value.v), w));
      AllConstantTail(w, ctx, names);
      ResolveAllRegistered(w, ctx, names[1..], obj);
      var r := ResolveAll(w, ctx, names, obj).value;
      forall i | 0 <= i < |names| ensures r.cmds[i] == Registered(w, ctx, names[i]) {
        if i > 0 {
          assert r.cmds[i] == ResolveAll(w, ctx, names[1..], obj).value.cmds[i - 1];
          assert names[1..][i - 1] == names[i];
        }
      }
    }
  }

  /** An unknown command name makes `build` raise "Unknown dependency" for
      that name; no MacroCommand is produced. */
  lemma {:induction false} UnknownNameFails(w: IdStrategy.State, ctx: Ctx, names: seq<Key>, obj: Arg, k: nat)
    requires IdStrategy.Ready(w) && k < |names| && names[k] != RootKey
    requires AllConstant(w, ctx, names[..k])
    requires Lookup(w.reg.store, StartScope(w.reg, ctx).value, names[k]).Err?
    ensures ResolveAll(w, ctx, names, obj) == Err(UnknownDependency(names[k]))
    decreases k
  {
    var start := StartScope(w.reg, ctx).value;
    if k == 0 {
      assert IdStrategy.Resolve(w, ctx, names[0], [obj]) == Err(UnknownDependency(names[0]));
    } else {
      assert names[..k][0] == names[0];
      assert IdStrategy.Resolve(w, ctx, names[0], [obj]) ==
             Ok(IdStrategy.Effect(Plain(Lookup(w.reg.store, start, names[0]).value.v), w));
      assert names[1..][..k - 1] == names[..k][1..];
      AllConstantTail(w, ctx, names[..k]);
      UnknownNameFails(w, ctx, names[1..], obj, k - 1);
    }
  }

  /** With a description and command names registered as constants, `build`
      yields the MacroCommand of the registered commands, in description
      order, and changes no state. */
  lemma BuildRegistered(w: IdStrategy.State, ctx: Ctx, operation: string, names: seq<Key>, obj: Arg)
    requires IdStrategy.Ready(w) && DescriptionKey(operation) != RootKey
    requires Lookup(w.reg.store, StartScope(w.reg, ctx).value, DescriptionKey(operation)) == Ok(Const(Names(names)))
    requires AllConstant(w, ctx, names)
    ensures Build(w, ctx, operation, obj).Ok?
    ensures Build(w, ctx, operation, obj).value.1 == w
    ensures var m := Build(w, ctx, operation, obj).value.0;
            |m.cmds| == |names| && forall i :: 0 <= i < |names| ==> m.cmds[i] == Registered(w, ctx, names[i])
  {
    assert IdStrategy.Resolve(w, ctx, DescriptionKey(operation), []) == Ok(IdStrategy.Effect(Plain(Names(names)), w));
    ResolveAllRegistered(w, ctx, names, obj);
  }

  /** The command names `main.py` registers as the movement operation's description. */
  const MovementNames: seq<Key> := ["Commands.CheckFuel", "Commands.Move", "Commands.BurnFuel"]

  /** The registrations the movement operation relies on, as seen from `ctx`. */
  predicate MovementRegistered(w: IdStrategy.State, ctx: Ctx)
    requires IdStrategy.Ready(w)
  {
    var start := StartScope(w.reg, ctx).value;
    && Lookup(w.reg.store, start, "Operations.Movement.Description") == Ok(Const(Names(MovementNames)))
    && Lookup(w.reg.store, start, "Commands.CheckFuel") == Ok(Const(CommandOf(CheckFuel)))
    && Lookup(w.reg.store, start, "Commands.Move") == Ok(Const(CommandOf(Move)))
    && Lookup(w.reg.store, start, "Commands.BurnFuel") == Ok(Const(CommandOf(BurnFuel)))
  }

  /** Building the movement operation whose description names CheckFuel,
      Move and BurnFuel gives the macro that checks fuel, moves the object
      and burns fuel. */
  lemma BuildMovement(w: IdStrategy.State, ctx: Ctx, obj: Arg)
    requires IdStrategy.Ready(w) && MovementRegistered(w, ctx)
    ensures Build(w, ctx, "Operations.Movement", obj) == Ok((MoveWithFuel, w))
  {
    assert DescriptionKey("Operations.Movement") == "Operations.Movement.Description";
    MovementCommands(w, ctx);
    BuildRegistered(w, ctx, "Operations.Movement", MovementNames, obj);
    var m := Build(w, ctx, "Operations.Movement", obj).value.0;
    assert m.cmds == MoveWithFuel.cmds;
  }

  /** Each movement name is registered as a constant, standing for the
      command of the movement macro at the same position. */
  lemma MovementCommands(w: IdStrategy.State, ctx: Ctx)
    requires IdStrategy.Ready(w) && MovementRegistered(w, ctx)
    ensures AllConstant(w, ctx, MovementNames)
    ensures |MoveWithFuel.cmds| == |MovementNames|
    ensures forall i :: 0 <= i < |MovementNames| ==> Registered(w, ctx, MovementNames[i]) == MoveWithFuel.cmds[i]
  {
    var start := StartScope(w.reg, ctx).value;
    forall i | 0 <= i < 3
      ensures Lookup(w.reg.store, start, MovementNames[i]).Ok? && Lookup(w.reg.store, start, MovementNames[i]).value.Const?
      ensures Registered(w, ctx, MovementNames[i]) == MoveWithFuel.cmds[i]
    {
      assert i == 0 || i == 1 || i == 2;
    }
  }

  /** The registrations a plugin command performs, in order. */
  function RegisterAll(w: IdStrategy.State, ctx: Ctx, regs: seq<(Key, Value)>): (r: Result<IdStrategy.State>)
    requires IdStrategy.Valid(w)
    ensures r.Ok? ==> IdStrategy.Valid(r.value)
    ensures r.Ok? ==> r.value.reg.root == w.reg.root && |w.reg.store| <= |r.value.reg.store|
    decreases |regs|
  {
    if |regs| == 0 then Ok(w)
    else
      var w1 :- IdStrategy.ResolveAndExecute(w, ctx, "IoC.Register", [Str(regs[0].0), Val(regs[0].1)]);
      RegisterAll(w1, ctx, regs[1..])
  }

  /** `MoveCommandPluginCommand`: the property accessors and the Move command. */
  const MovePlugin: seq<(Key, Value)> := [
    ("IMovable:position.get", Opaque("GetProperty position")),
    ("IMovable:position.set", Opaque("SetProperty position")),
    ("IMovable:velocity.get", Opaque("GetProperty velocity")),
    ("Commands.Move", CommandOf(Move))]

  /** `FuelCommandsPluginCommand`: the fuel accessors and the two fuel commands. */
  const FuelPlugin: seq<(Key, Value)> := [
    ("IFuelable:fuel_level.get", Opaque("GetProperty fuel_level")),
    ("IFuelable:fuel_level.set", Opaque("SetProperty fuel_level")),
    ("IFuelable:fuel_consumption.get", Opaque("GetProperty fuel_consumption")),
    ("Commands.CheckFuel", CommandOf(CheckFuel)),
    ("Commands.BurnFuel", CommandOf(BurnFuel))]

  /** The caller has a current scope in which 'IoC.Register' still means the built-in. */
  predicate CanRegister(w: IdStrategy.State, ctx: Ctx) {
    && IdStrategy.Ready(w) && ctx in w.reg.current
    && Lookup(w.reg.store, w.reg.current[ctx].value, "IoC.Register") == Ok(Builtin(IoCRegister))
  }

  /** The keys of `regs` are distinct and new to `d`. */
  predicate NewDistinct(d: map<Key, Factory>, regs: seq<(Key, Value)>) {
    && (forall i :: 0 <= i < |regs| ==> regs[i].0 !in d)
    && (forall i, j :: 0 <= i < j < |regs| ==> regs[i].0 != regs[j].0)
  }

  /** After the first key is added, the remaining ones are still distinct and new. */
  lemma NewDistinctTail(d: map<Key, Factory>, regs: seq<(Key, Value)>)
    requires NewDistinct(d, regs) && |regs| > 0
    ensures NewDistinct(d[regs[0].0 := Const(regs[0].1)], regs[1..])
  {
    var rest := regs[1..];
    forall i | 0 <= i < |rest| ensures rest[i].0 !in d[regs[0].0 := Const(regs[0].1)] {
      assert rest[i] == regs[i + 1];
    }
    forall i, j | 0 <= i < j < |rest| ensures rest[i].0 != rest[j].0 {
      assert rest[i] == regs[i + 1] && rest[j] == regs[j + 1];
    }
  }

  /** The keys a registration list introduces are new to the caller's scope,
      distinct, and neither 'IoC.Register' nor 'Scopes.Root'. */
  predicate FreshKeys(w: IdStrategy.State, ctx: Ctx, regs: seq<(Key, Value)>)
    requires CanRegister(w, ctx)
  {
    && NewDistinct(w.reg.store[w.reg.current[ctx].value].deps, regs)
    && (forall i :: 0 <= i < |regs| ==> regs[i].0 != "IoC.Register" && regs[i].0 != RootKey)
  }

  /** One registration step through the container, as `ResolveAndExecute` performs it. */
  lemma RegisterStep(w: IdStrategy.State, ctx: Ctx, key: Key, v: Value)
    requires CanRegister(w, ctx) && key != "IoC.Register"
    ensures var s := w.reg.current[ctx].value;
            && (key in w.reg.store[s].deps ==>
                  IdStrategy.ResolveAndExecute(w, ctx, "IoC.Register", [Str(key), Val(v)]) == Err(AlreadyRegistered(key)))
            && (key !in w.reg.store[s].deps ==>
                  && IdStrategy.ResolveAndExecute(w, ctx, "IoC.Register", [Str(key), Val(v)]).Ok?
                  && var w' := IdStrategy.ResolveAndExecute(w, ctx, "IoC.Register", [Str(key), Val(v)]).value;
                  && w' == w.(reg := w.reg.(store := Define(w.reg.store, s, key, Const(v)).value))
                  && CanRegister(w', ctx))
  {
    var s := w.reg.current[ctx].value;
    IdStrategy.ResolveRegisterCommand(w, ctx, key, v);
    if key !in w.reg.store[s].deps {
      DefineLeavesOtherKeys(w.reg.store, s, key, Const(v), s, "IoC.Register");
    }
  }

  /** A dependency map after `regs` are added to it one by one. */
  function AddAll(d: map<Key, Factory>, regs: seq<(Key, Value)>): map<Key, Factory>
    decreases |regs|
  {
    if |regs| == 0 then d else AddAll(d[regs[0].0 := Const(regs[0].1)], regs[1..])
  }

  /** Adding distinct keys that are new to the map gives exactly the old
      entries together with the new ones. */
  lemma {:induction false} AddAllContents(d: map<Key, Factory>, regs: seq<(Key, Value)>)
    requires NewDistinct(d, regs)
    ensures forall i :: 0 <= i < |regs| ==> regs[i].0 in AddAll(d, regs) && AddAll(d, regs)[regs[i].0] == Const(regs[i].1)
    ensures forall k :: k in d ==> k in AddAll(d, regs) && AddAll(d, regs)[k] == d[k]
    ensures forall k :: k in AddAll(d, regs) ==> k in d || exists i :: 0 <= i < |regs| && regs[i].0 == k
    decreases |regs|
  {
    if |regs| > 0 {
      var d1 := d[regs[0].0 := Const(regs[0].1)];
      var rest := regs[1..];
      NewDistinctTail(d, regs);
      AddAllContents(d1, rest);
      forall i | 0 <= i < |regs| ensures regs[i].0 in AddAll(d, regs) && AddAll(d, regs)[regs[i].0] == Const(regs[i].1) {
        if i > 0 {
          assert regs[i] == rest[i - 1];
        }
      }
      forall k | k in AddAll(d, regs) ensures k in d || exists i :: 0 <= i < |regs| && regs[i].0 == k {
        if k !in d1 {
          var i :| 0 <= i < |rest| && rest[i].0 == k;
          assert regs[i + 1].0 == k;
        } else if k !in d {
          assert regs[0].0 == k;
        }
      }
    }
  }

  /** The state after registering `regs` into the caller's current scope. */
  function WithEntries(w: IdStrategy.State, ctx: Ctx, regs: seq<(Key, Value)>): IdStrategy.State
    requires CanRegister(w, ctx)
  {
    var s := w.reg.current[ctx].value;
    w.(reg := w.reg.(store := w.reg.store[s := w.reg.store[s].(deps := AddAll(w.reg.store[s].deps, regs))]))
  }

  /** Running a plugin on fresh keys succeeds, and its only effect is to
      add its entries to the caller's current scope, where 'IoC.Register'
      still means the built-in. */
  lemma {:induction false} RegisterAllAdds(w: IdStrategy.State, ctx: Ctx, regs: seq<(Key, Value)>)
    requires CanRegister(w, ctx) && FreshKeys(w, ctx, regs)
    ensures RegisterAll(w, ctx, regs) == Ok(WithEntries(w, ctx, regs))
    ensures CanRegister(WithEntries(w, ctx, regs), ctx)
    decreases |regs|
  {
    var s := w.reg.current[ctx].value;
    var d := w.reg.store[s].deps;
    if |regs| == 0 {
      assert w.reg.store[s := w.reg.store[s].(deps := d)] == w.reg.store;
    } else {
      var key, v := regs[0].0, regs[0].1;
      RegisterStep(w, ctx, key, v);
      var w1 := IdStrategy.ResolveAndExecute(w, ctx, "IoC.Register", [Str(key), Val(v)]).value;
      var d1 := d[key := Const(v)];
      assert w1.reg.store == w.reg.store[s := w.reg.store[s].(deps := d1)];
      assert w1.reg.current == w.reg.current;
      var rest := regs[1..];
      assert FreshKeys(w1, ctx, rest) by {
        NewDistinctTail(d, regs);
        assert forall i :: 0 <= i < |rest| ==> rest[i] == regs[i + 1];
      }
      RegisterAllAdds(w1, ctx, rest);
      assert AddAll(d1, rest) == AddAll(d, regs);
      assert w1.reg.store[s := w1.reg.store[s].(deps := AddAll(d1, rest))]
          == w.reg.store[s := w.reg.store[s].(deps := AddAll(d, regs))];
      assert WithEntries(w1, ctx, rest) == WithEntries(w, ctx, regs);
    }
  }

  /** Running a plugin on fresh keys adds exactly its entries to the
      caller's current scope and changes nothing else. */
  lemma RegisterAllFresh(w: IdStrategy.State, ctx: Ctx, regs: seq<(Key, Value)>)
    requires CanRegister(w, ctx) && FreshKeys(w, ctx, regs)
    ensures RegisterAll(w, ctx, regs).Ok?
    ensures var w' := RegisterAll(w, ctx, regs).value;
            && CanRegister(w', ctx)
            && w'.ioc == w.ioc && w'.ids == w.ids && w'.reg.current == w.reg.current && w'.reg.root == w.reg.root
            && |w'.reg.store| == |w.reg.store|
    ensures var w' := RegisterAll(w, ctx, regs).value;
            forall i :: 0 <= i < |w.reg.store| && i != w.reg.current[ctx].value ==> w'.reg.store[i] == w.reg.store[i]
    ensures var w' := RegisterAll(w, ctx, regs).value;
            var s := w.reg.current[ctx].value;
            && w'.reg.store[s].parent == w.reg.store[s].parent && w'.reg.store[s].id == w.reg.store[s].id
            && w'.reg.store[s].deps == AddAll(w.reg.store[s].deps, regs)
  {
    RegisterAllAdds(w, ctx, regs);
  }

  /** Running a plugin again in the same scope fails on its first key. */
  lemma RegisterAllTwice(w: IdStrategy.State, ctx: Ctx, regs: seq<(Key, Value)>)
    requires CanRegister(w, ctx) && FreshKeys(w, ctx, regs) && |regs| > 0
    ensures RegisterAll(w, ctx, regs).Ok?
    ensures RegisterAll(RegisterAll(w, ctx, regs).value, ctx, regs) == Err(AlreadyRegistered(regs[0].0))
  {
    RegisterAllFresh(w, ctx, regs);
    AddAllContents(w.reg.store[w.reg.current[ctx].value].deps, regs);
    var w' := RegisterAll(w, ctx, regs).value;
    RegisterStep(w', ctx, regs[0].0, regs[0].1);
  }

  lemma MovePluginKeysDistinct()
    ensures forall i, j :: 0 <= i < j < |MovePlugin| ==> MovePlugin[i].0 != MovePlugin[j].0
    ensures forall i :: 0 <= i < |MovePlugin| ==> MovePlugin[i].0 != "IoC.Register" && MovePlugin[i].0 != RootKey
  {
    assert |MovePlugin[0].0| == 21 && |MovePlugin[1].0| == 21 && |MovePlugin[2].0| == 21 && |MovePlugin[3].0| == 13;
    assert MovePlugin[0].0[18] == 'g' && MovePlugin[1].0[18] == 's';
    assert MovePlugin[0].0[9] == 'p' && MovePlugin[2].0[9] == 'v';
    assert MovePlugin[1].0[9] == 'p' && MovePlugin[2].0[9] == 'v';
    assert MovePlugin[3].0[0] == 'C' && MovePlugin[0].0[0] == 'I' && MovePlugin[1].0[0] == 'I' && MovePlugin[2].0[0] == 'I';
  }

  lemma FuelPluginKeysDistinct()
    ensures forall i, j :: 0 <= i < j < |FuelPlugin| ==> FuelPlugin[i].0 != FuelPlugin[j].0
    ensures forall i :: 0 <= i < |FuelPlugin| ==> FuelPlugin[i].0 != "IoC.Register" && FuelPlugin[i].0 != RootKey
  {
    assert |FuelPlugin[0].0| == 24 && |FuelPlugin[1].0| == 24 && |FuelPlugin[2].0| == 30;
    assert |FuelPlugin[3].0| == 18 && |FuelPlugin[4].0| == 17;
    assert FuelPlugin[0].0[21] == 'g' && FuelPlugin[1].0[21] == 's';
    assert FuelPlugin[0].0[15] == 'l' && FuelPlugin[1].0[15] == 'l' && FuelPlugin[2].0[15] == 'c';
    assert FuelPlugin[3].0[9] == 'C' && FuelPlugin[4].0[9] == 'B';
    assert FuelPlugin[0].0[0] == 'I' && FuelPlugin[1].0[0] == 'I' && FuelPlugin[2].0[0] == 'I';
    assert FuelPlugin[3].0[0] == 'C' && FuelPlugin[4].0[0] == 'C';
  }

  /** `MoveCommandPluginCommand` run in a scope that has none of its keys
      registers all four; running it a second time in that scope fails on
      'IMovable:position.get'. */
  lemma MovePluginOnce(w: IdStrategy.State, ctx: Ctx)
    requires CanRegister(w, ctx)
    requires forall i :: 0 <= i < |MovePlugin| ==> MovePlugin[i].0 !in w.reg.store[w.reg.current[ctx].value].deps
    ensures RegisterAll(w, ctx, MovePlugin).Ok?
    ensures RegisterAll(RegisterAll(w, ctx, MovePlugin).value, ctx, MovePlugin) == Err(AlreadyRegistered("IMovable:position.get"))
  {
    MovePluginKeysDistinct();
    assert FreshKeys(w, ctx, MovePlugin);
    RegisterAllTwice(w, ctx, MovePlugin);
  }

  /** `FuelCommandsPluginCommand` likewise, failing the second time on
      'IFuelable:fuel_level.get'. */
  lemma FuelPluginOnce(w: IdStrategy.State, ctx: Ctx)
    requires CanRegister(w, ctx)
    requires forall i :: 0 <= i < |FuelPlugin| ==> FuelPlugin[i].0 !in w.reg.store[w.reg.current[ctx].value].deps
    ensures RegisterAll(w, ctx, FuelPlugin).Ok?
    ensures RegisterAll(RegisterAll(w, ctx, FuelPlugin).value, ctx, FuelPlugin) == Err(AlreadyRegistered("IFuelable:fuel_level.get"))
  {
    FuelPluginKeysDistinct();
    assert FreshKeys(w, ctx, FuelPlugin);
    RegisterAllTwice(w, ctx, FuelPlugin);
  }
}
