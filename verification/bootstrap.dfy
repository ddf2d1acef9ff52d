/** The bootstrap container `IoC` (iocs/base.py): one process-wide strategy
    slot, a default strategy that answers only 'IoC.SetupStrategy', and the
    command that swaps the slot.

    The module is generic in the values `X` that can be passed to `resolve`
    (and so installed as a strategy) and in the answers `A` an installed
    strategy gives; `apply` is how an installed value answers, which the
    modules of the hierarchical strategies supply. */
module Bootstrap {
  import opened Errors

  const SetupKey: string := "IoC.SetupStrategy"

  /** The class attribute `IoC.strategy`. */
  datatype Installed<X> = DefaultStrategy | Custom(strategy: X)

  /** A resolved value: a `SetupStrategyCommand` holding its argument, or an answer of an installed strategy. */
  datatype Reply<X, A> = SetupCommand(newStrategy: X) | Answer(answer: A)

  /** `IoC.default_strategy`: only the setup key is known, and it needs one argument. */
  function DefaultResolve<X, A>(key: string, args: seq<X>): (r: Result<Reply<X, A>>)
    ensures r.Ok? <==> key == SetupKey && |args| > 0
    ensures r.Ok? ==> r.value.SetupCommand? && r.value.newStrategy == args[0]
    ensures key != SetupKey ==> r == Err(UnknownDependency(key))
    ensures key == SetupKey && |args| == 0 ==> r == Err(MissingArgument) && !IsKeyError(r.error)
  {
    if key == SetupKey then
      if |args| > 0 then Ok(SetupCommand(args[0])) else Err(MissingArgument)
    else
      Err(UnknownDependency(key))
  }

  /** `IoC.resolve`: exactly what the installed strategy returns for the key and arguments. */
  function Resolve<X, A>(installed: Installed<X>, apply: (X, string, seq<X>) --> Result<Reply<X, A>>,
                         key: string, args: seq<X>): (r: Result<Reply<X, A>>)
    requires installed.Custom? ==> apply.requires(installed.strategy, key, args)
    ensures installed.DefaultStrategy? ==> (r.Ok? <==> key == SetupKey && |args| > 0)
    ensures installed.DefaultStrategy? && r.Ok? ==> r == Ok(SetupCommand(args[0]))
    ensures installed.DefaultStrategy? && key != SetupKey ==> r == Err(UnknownDependency(key))
    ensures installed.Custom? ==> r == apply(installed.strategy, key, args)
  {
    match installed
    case DefaultStrategy => DefaultResolve(key, args)
    case Custom(s) => apply(s, key, args)
  }

  /** `SetupStrategyCommand(x).execute()`: replaces the slot, whatever it held. */
  function ExecuteSetup<X>(installed: Installed<X>, newStrategy: X): (r: Installed<X>)
    ensures r.Custom? && r.strategy == newStrategy
  {
    Custom(newStrategy)
  }

  /** Executing a sequence of setup commands one after the other. */
  function ExecuteAll<X>(installed: Installed<X>, swaps: seq<X>): Installed<X>
    decreases |swaps|
  {
    if |swaps| == 0 then installed else ExecuteAll(ExecuteSetup(installed, swaps[0]), swaps[1..])
  }

  /** The last executed swap wins, whatever was installed before. */
  lemma {:induction false} LastSwapWins<X>(installed: Installed<X>, swaps: seq<X>)
    requires |swaps| > 0
    ensures ExecuteAll(installed, swaps) == Custom(swaps[|swaps| - 1])
    decreases |swaps|
  {
    if |swaps| > 1 {
      LastSwapWins(ExecuteSetup(installed, swaps[0]), swaps[1..]);
    }
  }

  /** After executing `SetupStrategyCommand(s)`, every key resolves through `s`. */
  lemma SwapRedirects<X, A>(installed: Installed<X>, s: X, apply: (X, string, seq<X>) --> Result<Reply<X, A>>,
                            key: string, args: seq<X>)
    requires apply.requires(s, key, args)
    ensures Resolve(ExecuteSetup(installed, s), apply, key, args) == apply(s, key, args)
  {
  }

  /** From the default strategy, resolving the setup key yields a command but
      installs nothing; only executing that command swaps the strategy. */
  lemma BootstrapUpgrade<X, A>(s: X, apply: (X, string, seq<X>) --> Result<Reply<X, A>>)
    ensures Resolve<X, A>(DefaultStrategy, apply, SetupKey, [s]) == Ok(SetupCommand(s))
    ensures forall key :: key != SetupKey ==>
              Resolve<X, A>(DefaultStrategy, apply, key, [s]) == Err(UnknownDependency(key))
    ensures forall key, args :: apply.requires(s, key, args) ==>
              Resolve(ExecuteSetup(DefaultStrategy, s), apply, key, args) == apply(s, key, args)
  {
  }
}
