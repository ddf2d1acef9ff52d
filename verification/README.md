# Scoped IoC container, command executors and game commands, in Dafny

This project models the core of a small Python game-server exercise. The core has four parts.

**The IoC container.** `IoC.resolve` delegates to a swappable strategy. The default strategy knows only `'IoC.SetupStrategy'`.

**The hierarchical scope strategies.**
- There are two variants:
  - an id-keyed one with a scope-id table and `Scopes.Clear`;
  - an object-passing one, where callers hand scope objects around.
- In both, a scope maps keys to factories and may have a parent. A lookup walks the parent chain, and the nearest definition wins.
- Registration writes only into the caller's current scope and refuses a key already there.
- Every thread has its own current-scope slot.

**The command-executor threads.** A worker takes commands from a queue and runs them until a hard or soft stop. A failure goes to an exception handler and never ends the loop. The loop exists in two variants:
- `StartThreadCommand`, where the stop flags live on the command object;
- `CommandExecutorThread`, where the stop commands register `'Thread.HardStop'` and `'Thread.SoftStop'` in the worker's scope.

**The game commands.** Move, CheckFuel, BurnFuel and Rotate, plus `MacroCommand`, `OperationBuilder`, the Retry wrappers and the message of the `Log` command.

## How the Python maps to Dafny

**State**
- Threads become explicit state. `threading.local` is a map from execution context to slot contents; a context missing from the map has never set its slot.
- Every scope object ever created lives in an append-only sequence and is referred to by its position. A parent always sits before its children, which is what makes the chain walk terminate.
- The id table of the id-keyed variant is a separate map from id to position. `Scopes.Clear` empties that table, but scope objects keep their parents.

**Resolving and commands**
- A resolve returns its value together with the state it leaves behind. Errors are the Python exceptions, listed in `Errors.Error`.
- A command's `execute` returns the new state or the error.
- Game objects are `Bodies.Body` values:
  - every accessor may be marked broken, and a broken accessor raises;
  - setters record the writes they made, so "written exactly once" and "never written" can be stated.

**Worker loops**
- A loop is a step function; `Run(l, n)` is `n` iterations with no producer in between.
- A blocking `q.get()` on an empty queue is the `Waiting` status, not termination. A waiting worker runs the next command put without re-reading the flags.

| file | models |
|---|---|
| errors.dfy | the exceptions; `Result` and `Outcome` |
| bootstrap.dfy | iocs/base.py |
| scopes.dfy | `Scope.resolve`, the strategy's `resolve`, the set-current and register commands (shared by both variants) |
| id_strategy.dfy | iocs/scope_based_strategy.py, wired into the container |
| object_strategy.dfy | iocs/scope_based/strategy.py, wired into the container |
| thread_start.dfy | `StartThreadCommand.execute` up to the start of the thread |
| thread_loop.dfy | the `run` loop of thread/commands.py and `ThreadRepeatedCommand` |
| event_loop.dfy | iocs/scope_based/event_loop.py and the stop commands of iocs/commands.py |
| bodies.dfy | the accessors of the movable / fuelable / rotatable object |
| game_commands.dfy | Move, CheckFuel, BurnFuel, Rotate, the early exit of ChangeVelocity, MacroCommand, Retry, DoubleRetry |
| pymath.dfy | Python's flooring `%` |
| builder.dfy | `OperationBuilder.build` and the movement/fuel plugin commands |
| error_log.dfy | the message of the `Log` command |

## Model

| member | source | states |
|---|---|---|
| Bootstrap.DefaultResolve | iocs/base.py:9-19 | The default strategy answers only 'IoC.SetupStrategy' given at least one argument, with a setup command holding the first argument. Every other key raises "Unknown dependency". The setup key with no argument raises IndexError, which is not a KeyError. |
| Bootstrap.Resolve | iocs/base.py:5-7 | `IoC.resolve` returns exactly what the installed strategy returns for the key and arguments. While nothing is installed, that is the default strategy's answer. |
| Bootstrap.ExecuteSetup | iocs/base.py:30-31 | Executing a setup command installs its strategy, whatever was installed before. |
| Bootstrap.LastSwapWins | iocs/base.py:30-31 | After any non-empty series of executed swaps, the strategy installed is the last one. |
| Bootstrap.SwapRedirects | iocs/base.py:5-7 | After `SetupStrategyCommand(s)` is executed, every key and argument list resolves through `s`. |
| Bootstrap.BootstrapUpgrade | iocs/base.py:16-17 | Under the default strategy, resolving the setup key only yields a command; every other key is unknown. Only executing the command switches every key over to the new strategy. |
| Scopes.Lookup | iocs/scope_based_strategy.py:14-20 | A scope that defines the key answers with its own factory. A lookup can only fail with "Unknown dependency '<key>'". |
| Scopes.Chain | iocs/scope_based_strategy.py:17-18 | The parent chain starts at the scope and follows each scope to its parent. It only visits scopes created earlier and ends at a scope without a parent, so it is finite and acyclic. |
| Scopes.LookupFindsNearest | iocs/scope_based_strategy.py:14-20 | A lookup succeeds exactly when some scope on the chain defines the key. It then answers with the factory of the nearest such scope. |
| Scopes.LookupOkIsNearest | iocs/scope_based_strategy.py:15-18 | A successful lookup's factory comes from a scope on the chain that defines the key, and no scope nearer on the chain defines it. |
| Scopes.LookupErrDefinesNone | iocs/scope_based_strategy.py:19-20 | A failed lookup means that no scope on the chain defines the key. |
| Scopes.LookupDependsOnlyOnChain | iocs/scope_based/strategy.py:12-18 | A store that agrees with this one on the scopes of a chain gives the same chain and answers every key alike. Scopes off the chain cannot influence a lookup. |
| Scopes.Define | iocs/scope_based_strategy.py:75-78 | Adding a key to a scope is refused exactly when that scope itself already holds the key; a definition in an ancestor does not count. Otherwise only that scope gains the entry. |
| Scopes.StartScope | iocs/scope_based_strategy.py:45-47 | A resolve starts from the caller's current scope, or from root when the caller's slot holds none. |
| Scopes.CurrentScope | iocs/scope_based_strategy.py:32-34 | `get_current_scope` is None for a context that never set its slot. It reports a scope only when that is what the context's own slot holds; `Scopes.SetCurrent` is its partner. |
| Scopes.StrategyResolve | iocs/scope_based_strategy.py:41-49 | 'Scopes.Root' answers root from any context. Any other key is looked up from the start scope, and with no scope at all the resolve raises AttributeError. |
| Scopes.SetCurrent | iocs/scope_based_strategy.py:61-62 | The calling context's slot now holds the given scope. Every other context's slot, the scopes and root are unchanged. |
| Scopes.Register | iocs/scope_based_strategy.py:72-80 | Registering fails in three cases: a never-set slot raises AttributeError, an empty slot raises 'unknown scope', and a key already in the current scope raises 'already registered'. Otherwise only the current scope's map gains the entry, and every reference stays valid. |
| Scopes.DefineLeavesOtherKeys | iocs/scope_based_strategy.py:78 | Defining one key changes the lookup of no other key, from any scope. |
| Scopes.RegisterKeepsValid | iocs/scope_based_strategy.py:72-80 | A successful registration keeps every parent, root and slot reference pointing at an existing scope. |
| Scopes.RegisterThenResolve | iocs/scope_based/strategy.py:70-78 | Right after registering, the registering context resolves the key to the registered value, whatever its ancestors define. |
| Scopes.RegisterInvisibleOffChain | iocs/scope_based/strategy.py:12-18 | A registration changes nothing for a context whose chain does not pass through the registering scope, such as a parent or a sibling. |
| Scopes.SetCurrentIsolated | iocs/scope_based/strategy.py:59-60 | Setting one context's current scope changes no other context's resolution of any key. |
| Scopes.UnsetSlotUsesRoot | iocs/scope_based/strategy.py:43-45 | A context that never set its slot resolves every key exactly as if its slot held root. |
| Scopes.Append | iocs/scope_based_strategy.py:112 | Creating a scope appends one scope with an empty map and the given parent. Root and every slot are unchanged, and all references stay valid. |
| Scopes.AppendedScopeInherits | iocs/scope_based/strategy.py:94 | A new scope answers every key exactly as its parent does, and creating it changes no existing scope's answers. |
| Scopes.LaterScopesNotOnChain | iocs/scope_based/strategy.py:15-16 | A scope created after `s` never lies on `s`'s chain. |
| Scopes.RegisterInLaterScopeInvisible | tests/test_iocs/test_scope_based.py:111-140 | A key registered in a scope created after the one a context starts from is invisible to that context. For example, the main thread does not see what worker threads register in their own child scopes. |
| Scopes.ShadowThenSwitchBack | tests/test_iocs/test_scope_based.py:103-107 | A child scope may register a key that its chain already defines, and it then answers its own value. Switching the context back to the parent gives the parent's answer again. |
| IdStrategy.ParentFor | iocs/scope_based_strategy.py:104-107 | Python truthiness decides. A false parent id (None, '', 0, False, an empty list) means the caller's current scope. A true one is looked up in the id table, and anything the table does not hold gives no parent, including every value that is not a string. A non-empty list cannot be looked up (TypeError). |
| IdStrategy.NewScope | iocs/scope_based_strategy.py:102-116 | A scope is created only when a parent is found and the id is new. It starts with an empty map, and only its id enters the table. With a known id the call is refused. Without a parent id and without a current scope, 'Cannot identify parent scope!' is raised. |
| IdStrategy.Call | iocs/scope_based_strategy.py:96-129 | A registered constant answers with its value and changes nothing. Of the built-ins, only 'Scopes.New' changes the state. 'Scopes.Current.Set' with a string the table lacks, or with any other hashable value, is a KeyError. |
| IdStrategy.Apply | iocs/scope_based_strategy.py:41-49 | Only the strategy's own `resolve` can be called as the installed strategy. What it hands out keeps the state valid. |
| IdStrategy.Resolve | iocs/base.py:5-19 | The container answers from the state it is in. Under the default strategy only the setup key succeeds. Once the scope strategy is installed, every answer leaves a valid state. |
| IdStrategy.ResolveThroughContainer | iocs/base.py:5-7 | The model's resolve is exactly `IoC.resolve`, with this strategy's `resolve` as the installed callable. |
| IdStrategy.Execute | iocs/scope_based_strategy.py:61-124 | Each command does one thing: Set changes only the caller's slot, and Register behaves exactly as the register command. Clear keeps only 'ROOT' in the id table, and setup installs the strategy. |
| IdStrategy.InitScopes | iocs/scope_based_strategy.py:86-132 | Once root exists, initialising changes nothing. Otherwise it installs the strategy, creates root 'ROOT' with the six built-ins, and makes root the caller's current scope. It succeeds exactly when the default strategy is still installed. |
| IdStrategy.ResolveAndExecute | iocs/scope_based_strategy.py:90 | Executing what a resolve returns succeeds only when the resolve produced a command, and it leaves root where it was. |
| IdStrategy.ResolveCallsFound | iocs/scope_based_strategy.py:45-49 | Away from 'Scopes.Root', an initialised container resolves a key by calling the factory that the lookup from the caller's start scope finds. |
| IdStrategy.InitFromScratch | iocs/scope_based_strategy.py:90-132 | The first initialisation gives the installed strategy, a root with the six built-ins, the id table {'ROOT'}, and root as the caller's scope. |
| IdStrategy.InitIdempotent | iocs/scope_based_strategy.py:87-88 | Initialising again, from any context, changes nothing. |
| IdStrategy.RootFromAnywhere | iocs/scope_based_strategy.py:42-43 | 'Scopes.Root' answers root from every context and changes nothing. |
| IdStrategy.ResolveFollowsChain | iocs/scope_based_strategy.py:45-49 | A key resolves from the caller's current scope, or from root for a context that never set one. A constant found there is the answer, and a failed lookup is "Unknown dependency". |
| IdStrategy.NoSetupAfterInstall | iocs/scope_based_strategy.py:41-49 | Once the scope strategy is installed, 'IoC.SetupStrategy' is an unknown dependency unless some scope registered it. |
| IdStrategy.NewScopeUnderId | iocs/scope_based_strategy.py:104-115 | A new id under a known parent id creates that parent's child. The child is empty, so it answers as the parent does, and only the new id enters the table. |
| IdStrategy.NewScopeRefusals | iocs/scope_based_strategy.py:109-114 | The parent is checked before the id. An unknown parent id raises 'Cannot identify parent scope!', even when the id is a duplicate. With a parent, a duplicate id raises 'already exists'. |
| IdStrategy.NonStringIds | iocs/scope_based_strategy.py:104-127 | A false parent id creates exactly the scope an omitted one does. A true parent id that is not a string raises 'Cannot identify parent scope!'. 'Scopes.Current.Set' with a hashable id that is not a string is a KeyError. |
| IdStrategy.SetCurrentById | iocs/scope_based_strategy.py:127 | 'Scopes.Current.Set' with an unknown id is a KeyError. With a known id, its command makes that scope the caller's and leaves every other slot, the scopes and the table as they were. |
| IdStrategy.ClearForgetsIdsOnly | iocs/scope_based_strategy.py:120-124 | Clear leaves only 'ROOT' in the table and changes no scope or slot, so every context resolves every key as before. Root can still be named, and a forgotten id can be created again. |
| IdStrategy.ResolveSetCurrent | iocs/scope_based_strategy.py:127 | Where 'Scopes.Current.Set' still means the built-in, resolving it with a known id and executing the command sets exactly the caller's slot. |
| IdStrategy.ResolveRegisterCommand | iocs/scope_based_strategy.py:129 | Where 'IoC.Register' still means the built-in, resolving it hands out the registration command and changes nothing. |
| IdStrategy.RegisterThroughContainer | iocs/scope_based_strategy.py:72-78 | After a registration through the container, the caller resolves the registered value. Registering the same key again in that scope is refused. |
| ObjectStrategy.NewScope | iocs/scope_based/strategy.py:94 | 'Scopes.New' with a scope gives a new scope with an empty map and that scope as parent. With a false value (None, '', 0, False, an empty list) the new scope has no parent, since `Scope.resolve` follows only a true parent. A true value that is not a scope is refused (see Left out). |
| ObjectStrategy.Call | iocs/scope_based/strategy.py:93-99 | A registered constant answers with its value and changes nothing. Of the built-ins, only 'Scopes.New' changes the state. 'Scopes.Current.Set' hands out a command for a scope or None, and refuses any other value (see Left out). |
| ObjectStrategy.Apply | iocs/scope_based/strategy.py:38-47 | Only the strategy's own `resolve` can be called as the installed strategy. What it hands out keeps the state valid. |
| ObjectStrategy.Resolve | iocs/base.py:5-19 | Under the default strategy only the setup key succeeds. A successful resolve leaves a valid state with the same root and no scope lost. |
| ObjectStrategy.ResolveThroughContainer | iocs/base.py:5-7 | The model's resolve is exactly `IoC.resolve`, with this strategy's `resolve` as the installed callable. |
| ObjectStrategy.Execute | iocs/scope_based/strategy.py:59-78 | Set changes only the caller's slot and may set it to None. Register behaves exactly as the register command, and setup installs the strategy. |
| ObjectStrategy.ResolveAndExecute | iocs/scope_based/strategy.py:88 | Executing what a resolve returns succeeds only when the resolve produced a command, and it leaves root where it was. |
| ObjectStrategy.InitScopes | iocs/scope_based/strategy.py:84-102 | Once root exists, initialising changes nothing. Otherwise it installs the strategy, creates root with the five built-ins, and makes root the caller's current scope. |
| ObjectStrategy.InitFromScratch | iocs/scope_based/strategy.py:88-102 | The first initialisation gives the installed strategy, a root with the five built-ins, and root as the caller's scope. |
| ObjectStrategy.InitIdempotent | iocs/scope_based/strategy.py:85-86 | Initialising again, from any context, changes nothing. |
| ObjectStrategy.CurrentAfterInit | tests/test_iocs/test_scope_based.py:37-40 | Right after initialisation, 'Scopes.Current' is root for the initialising context. Another context gets None from it, yet that context's lookups still start from root. |
| ObjectStrategy.NewScopeIsFreshChild | tests/test_iocs/test_scope_based.py:45-49 | A new scope under a parent is distinct from the parent, is empty, and answers every key as the parent does. |
| ObjectStrategy.NewScopeFromFalseValue | iocs/scope_based/strategy.py:15-18 | A scope made from a false value has no parent and an empty map, so it answers no key: every lookup from it raises "Unknown dependency". |
| ThreadStart.IdOf | thread/commands.py:39 | `.id` of a scope is its id. `.id` of None raises AttributeError, as does `.id` of anything that is not a scope. |
| ThreadStart.ThreadKeysDistinct | thread/commands.py:42-64 | The five keys the command registers are distinct, and none of them is 'IoC.Register' or 'Scopes.Root'. |
| ThreadStart.StartThread | thread/commands.py:36-64 | A successful start keeps the state valid and never replaces root or drops a scope. Its scope and registrations are stated by ThreadStart.StartThreadCreatesScope, and its refusals by ThreadStart.StartThreadDuplicateId, ThreadStart.StartThreadFromForgottenScope and ThreadStart.StartThreadWithoutScope. |
| ThreadStart.EnterAndRegister | thread/commands.py:40-64 | Entering the thread's scope and registering its entry points keeps the state valid and never replaces root or drops a scope. |
| ThreadStart.CreateThreadScope | thread/commands.py:39 | The command names the caller's current scope as parent of a new scope called after the thread id. |
| ThreadStart.EnterThreadScope | thread/commands.py:40 | The new scope then becomes the caller's current scope, and 'IoC.Register' still means the built-in there. |
| ThreadStart.CreatedScope | thread/commands.py:39 | After 'Scopes.New' the caller's slot is untouched and the new id names the new scope. The new scope reaches the built-in 'IoC.Register', and the parent still reaches 'Scopes.Current.Set'. |
| ThreadStart.StartThreadCreatesScope | thread/commands.py:36-64 | A new thread id gives one new scope: named after the thread, a child of the caller's current scope, and now current for the caller. Exactly the thread's five entry points are registered in it, and no older scope changes, so none of them sees the entries. |
| ThreadStart.StartThreadDuplicateId | thread/commands.py:39 | A thread id already in the table is refused by 'Scopes.New' with 'already exists', before anything changes. |
| ThreadStart.StartThreadFromForgottenScope | iocs/scope_based_strategy.py:104-110 | If 'Scopes.Clear' has removed the caller's current scope id from the table, that id finds no parent, and the thread cannot be started. |
| ThreadStart.StartThreadWithoutScope | thread/commands.py:39 | A context that never set its current scope gets None from 'Scopes.Current'. Reading `.id` from it raises AttributeError. |
| ThreadLoop.Start | thread/commands.py:25-28 | A new worker starts with an empty queue, both flags clear, running, with nothing done. |
| ThreadLoop.Put | thread/commands.py:45 | Putting a command appends it at the end of the queue and changes nothing else. |
| ThreadLoop.Act | thread/commands.py:30-34 | Only the stop commands touch the flags, and only to set them. Only a raising command fails. A command that returns is recorded with the slot it ran under; a raising one leaves its record to the handler step. |
| ThreadLoop.ExecJob | thread/commands.py:13-15 | A repeated command puts itself back at the end of the queue exactly when its inner command returned. A scope-switch command changes only the slot. Flags never go from set to clear. |
| ThreadLoop.Dispatch | thread/commands.py:83-94 | Before each command the slot is reset to the thread's own scope, so every command runs in it. A failure is added to the trace as handled or unhandled, and the worker keeps running. |
| ThreadLoop.Step | thread/commands.py:67-80 | A stopped worker never changes. A running one stops at once if the hard flag is set. Otherwise it stops on an empty queue with the soft flag, or waits on an empty queue without it, and else runs the head command. Flags never clear. |
| ThreadLoop.StoppedStays | thread/commands.py:68-77 | Once the loop has ended, no further iteration changes anything. |
| ThreadLoop.HardStopHalts | thread/commands.py:68-70 | A running worker whose hard flag is set stops at the next check, whatever the soft flag, and leaves its queue unrun. |
| ThreadLoop.StepPlain | thread/commands.py:80-92 | With the hard flag clear, a plain command at the head of the queue runs in the thread's scope, and the flags stay as they were. |
| ThreadLoop.RunPlain | thread/commands.py:66-95 | With the hard flag clear, a queue prefix of plain commands runs one command per iteration, in queue order. A failing command does not stop the worker. |
| ThreadLoop.SoftStopDrains | thread/commands.py:72-77 | With the soft flag set, the worker runs every queued command without blocking and then stops on the empty queue. |
| ThreadLoop.RunSplit | thread/commands.py:67 | A helper for the loop lemmas: running `a` iterations and then `b` more is running `a + b`. |
| ThreadLoop.HardStopCutsQueue | tests/test_thread.py:31-54 | The commands before a hard-stop command run. The worker stops right after it, and everything queued behind it stays unrun for good. |
| ThreadLoop.HardStopAtHead | thread/commands.py:68-70 | A hard-stop command at the head of the queue runs, and the worker stops at the next check with the rest still queued. |
| ThreadLoop.SoftStopRunsTheRest | tests/test_thread.py:56-80 | Every command queued before and after a soft-stop command runs, and then the worker stops. |
| ThreadLoop.RunPlainThen | thread/commands.py:66-95 | After a plain prefix has run, the worker is still running with its flags unchanged, and the remaining iterations start from there. |
| ThreadLoop.SoftStopAtHead | thread/commands.py:72-77 | A soft-stop command at the head of the queue runs, then the plain commands behind it drain, and the worker stops. |
| ThreadLoop.RepeatRunsForever | thread/commands.py:13-15 | A repeated command that keeps succeeding is always the only job in the queue and runs once per iteration, even though a soft stop waits for an empty queue. |
| ThreadLoop.RepeatDropsOnFailure | thread/commands.py:13-15 | A repeated command whose inner command raises goes to the handler and is not put back. |
| ThreadLoop.SwitchDoesNotCarryOver | thread/commands.py:83 | A command that moves the worker's slot elsewhere does not affect the next command, which again runs in the thread's own scope. |
| ThreadLoop.BlockedGetIgnoresFlags | thread/commands.py:80 | A worker blocked on an empty queue runs the next command put, even if its hard flag was set meanwhile. Only the check after that command stops it. |
| ThreadLoop.HardStopScenario | tests/test_thread.py:31-54 | With the queue [command, hard stop, command], only the first command runs before the worker stops. |
| ThreadLoop.SoftStopScenario | tests/test_thread.py:56-80 | With the queue [command, soft stop, command], both commands run and the worker stops. |
| ThreadLoop.ExceptionScenario | tests/test_thread.py:82-105 | With the queue [raising command, command, hard stop], the failure is handled, the next command still runs, and the worker stops. |
| EventLoop.ReadFlag | iocs/scope_based/event_loop.py:17-29 | A stop property reads as the truth value of the resolved value. An unknown key (KeyError) reads as False, and any other exception escapes. |
| EventLoop.ResolveFromScope | iocs/scope_based/event_loop.py:20 | In an initialised container, a key resolved by the worker fails as its lookup fails. A registered constant answers as is. |
| EventLoop.FlagUnknownReadsFalse | iocs/scope_based/event_loop.py:21-22 | A flag that no scope on the worker's chain registered reads False and changes nothing. |
| EventLoop.FlagReadsConstant | iocs/scope_based/event_loop.py:18-20 | A flag registered as a constant reads as that value's truth value. |
| EventLoop.RaiseFlag | iocs/commands.py:10-11 | The stop commands register their flag through the container. The state stays valid and root and the installed strategy are unchanged. |
| EventLoop.RaiseFlagRegisters | iocs/commands.py:10-20 | In the worker's scope, a stop command writes True under its key, after which the worker reads the flag as True. In a scope already holding the key it raises 'Dependency already registered'. |
| EventLoop.RaisedFlagStaysLocal | iocs/scope_based/event_loop.py:33-41 | A flag raised by one worker still reads False for any worker whose chain does not pass through that worker's scope, such as a sibling. |
| EventLoop.Exec | iocs/scope_based/event_loop.py:56 | A command fails exactly when it raises, or when it is a stop command whose registration fails. Only a plain command that succeeds is recorded as run. |
| EventLoop.Dispatch | iocs/scope_based/event_loop.py:55-63 | A failure goes to the handler, and a failure of the handler is only printed. Either way the worker keeps running and adds at most one event. |
| EventLoop.EnterScope | iocs/scope_based/event_loop.py:33-34 | Creating the thread's scope and entering it keeps the state valid with root unchanged. |
| EventLoop.Start | iocs/scope_based/event_loop.py:31-38 | A started worker runs with the queue as put and an empty trace, with root unchanged. |
| EventLoop.Prepare | iocs/scope_based/event_loop.py:37-38 | Resolving the queue and the handler leaves a running worker with an empty trace. |
| EventLoop.EnterChildScope | iocs/scope_based/event_loop.py:33-34 | A thread that never set its slot ends up in a new child of the parent scope that answers every key as the parent does. No other context's slot moves. |
| EventLoop.StartInFreshThread | tests/test_event_loop.py:17-29 | With the queue and the handler registered in the parent scope, the worker starts in a new child of it, running, with an empty trace. |
| EventLoop.InheritedLookup | iocs/scope_based/event_loop.py:37 | A key the thread looks up from its new scope is looked up in the parent scope. |
| EventLoop.PrepareFindsBoth | iocs/scope_based/event_loop.py:37-38 | Where the queue and the handler are constants seen from the thread's scope, preparing succeeds and changes nothing. |
| EventLoop.StartWithoutQueue | iocs/scope_based/event_loop.py:37 | When no scope on the parent's chain registers 'Queue', `run` raises KeyError before the loop. |
| EventLoop.Step | iocs/scope_based/event_loop.py:40-64 | A stopped or dead worker never changes. Only an exception other than KeyError, raised while reading a flag, kills the worker. Waiting happens only on an empty queue, and a running worker has taken the head of its queue. |
| EventLoop.StepReadsFlags | iocs/scope_based/event_loop.py:41-53 | The hard flag wins over everything. The soft flag ends the loop only on an empty queue. With neither flag, the worker blocks on an empty queue and otherwise runs the head command. |
| EventLoop.IterateSplit | iocs/scope_based/event_loop.py:40 | A generic helper about iterating any step function: applying it `a` times and then `b` more is applying it `a + b` times. |
| EventLoop.RunSplit | iocs/scope_based/event_loop.py:40 | A helper for the loop lemmas: running `a` iterations and then `b` more is running `a + b`. |
| EventLoop.RunStep | iocs/scope_based/event_loop.py:40 | A helper for the loop lemmas: a run of `n` iterations is one iteration followed by the other `n - 1`. |
| EventLoop.StoppedStays | iocs/scope_based/event_loop.py:43-50 | Once the loop has ended, no further iteration changes anything. |
| EventLoop.StepOrdinary | iocs/scope_based/event_loop.py:53-61 | With neither flag read as set, a plain command at the head runs and nothing else changes. |
| EventLoop.RunPlain | iocs/scope_based/event_loop.py:40-64 | While the hard flag reads False, a queue prefix of plain commands runs one command per iteration, in queue order. A failing command does not stop the worker, and the container is untouched. |
| EventLoop.DrainThenBlockOrStop | iocs/scope_based/event_loop.py:45-53 | After running its plain commands, the worker blocks on the empty queue without the soft flag and stops with it. |
| EventLoop.SoftStopDrains | iocs/scope_based/event_loop.py:45-50 | With the soft flag read True, the worker drains its plain commands without blocking and stops for good. |
| EventLoop.HardStopHalts | iocs/scope_based/event_loop.py:41-43 | A worker that reads the hard flag True stops at once, with all its commands still queued, and never changes again. |
| EventLoop.FreshReadsClear | iocs/scope_based/event_loop.py:17-29 | A worker whose scope chain registers neither flag reads both as False. |
| EventLoop.RaiseFromFresh | iocs/commands.py:10-20 | After one stop command, the worker reads that flag as True and the other one still as False. |
| EventLoop.FreshStepOrdinary | iocs/scope_based/event_loop.py:55-61 | A worker in a fresh scope runs the plain command at the head of its queue and stays fresh. |
| EventLoop.FreshStepStop | iocs/commands.py:10-20 | A stop command at the head registers its flag in the worker's own scope and is not recorded as run. |
| EventLoop.HardStopScenario | tests/test_event_loop.py:35-53 | With the queue [command, hard stop, command], the first command runs, the worker stops, and the last command never runs. |
| EventLoop.SoftStopScenario | tests/test_event_loop.py:55-76 | With the queue [command, soft stop, command], both commands run and the worker stops on the empty queue. |
| EventLoop.ExceptionScenario | tests/test_event_loop.py:78-98 | With the queue [raising command, command, hard stop], the failure is handled, the next command runs, and the worker stops. |
| EventLoop.FailureThenSuccess | tests/test_event_loop.py:78-98 | In the first two iterations of the exception case, the failure is handled, the next command runs, and the worker's scope still has no flag. |
| EventLoop.SoftStopTwice | iocs/commands.py:19-20 | A second soft stop in the same scope raises 'Dependency already registered'. The handler receives that failure and the worker still stops. |
| Bodies.Plus | features/movement/commands.py:13 | Vector addition is componentwise. |
| Bodies.Read | features/movement/commands.py:13 | A getter answers exactly when it does not raise. |
| Bodies.SetPositionTo | features/movement/commands.py:13 | `set_position` either raises or stores the position and records exactly that one write. |
| Bodies.SetFuelLevelTo | features/movement/commands.py:30 | `set_fuel_level` either raises or stores the level and records exactly that one write. |
| Bodies.SetDirectionTo | features/rotation/commands.py:16-18 | `set_direction` either raises or stores the direction and records exactly that one write. |
| Bodies.SetVelocityTo | features/rotation/commands.py:33 | `set_velocity` either raises or stores the velocity and records exactly that one write. |
| GameCommands.Apply | features/movement/commands.py:13 | A failing setter leaves the object as it was. |
| GameCommands.MoveExec | features/movement/commands.py:12-13 | Move succeeds exactly when both getters and the setter work. The new position is position + velocity, written by exactly one `set_position`. A failing getter propagates and nothing is written. |
| GameCommands.CheckFuelExec | features/movement/commands.py:20-22 | CheckFuel never writes. It passes exactly when the level is at least the consumption, so equality passes, and a lower level raises 'Not enough fuel'. |
| GameCommands.BurnFuelExec | features/movement/commands.py:29-30 | With working accessors, BurnFuel lowers the fuel level by exactly the consumption, with one `set_fuel_level` call. On failure nothing is written. |
| GameCommands.RotateExec | features/rotation/commands.py:15-18 | Rotate writes once a direction congruent to direction + angular velocity. For a positive number of directions it lies in [0, n), and for a negative one in (n, 0]. Zero directions raise ZeroDivisionError, and any failure writes nothing. |
| GameCommands.ChangeVelocityExec | features/rotation/commands.py:25-36 | It succeeds exactly when the velocity cannot be read, or when the angle can be read and the velocity can be set. If the velocity cannot be read, it returns without writing. If the angle cannot be read it fails with 'get_angle', and if the velocity cannot be set it fails with 'set_velocity'; a failure writes nothing. A success with a readable velocity writes exactly the velocity the heading determines. |
| GameCommands.Exec | features/base/commands.py:11-16 | No command erases earlier writes. A macro that fails raises CommandException. |
| GameCommands.RunAll | features/base/commands.py:13-14 | An empty command list does nothing and raises nothing, and running commands never erases writes. |
| GameCommands.RunAllAppend | features/base/commands.py:13-14 | Running `a + c` is running `a` and then, only if nothing failed, `c` from where `a` left the object. |
| GameCommands.MacroStopsAtFirstFailure | tests/test_commands/test_macrocommand.py:24-42 | When command `k` is the first to fail, the macro raises CommandException around that error and leaves the object where command `k` left it. Nothing after `k` runs. |
| GameCommands.MacroKeepsEarlierWrites | features/base/commands.py:13-16 | There is no rollback: the writes of commands that succeeded before a failure remain. |
| GameCommands.MacroOfNothing | features/base/commands.py:13-14 | A macro with no commands does nothing and raises nothing. |
| GameCommands.MacroAllSucceed | tests/test_commands/test_macrocommand.py:10-22 | When no command fails, the macro succeeds with the result of running its commands in list order, starting with the first. |
| GameCommands.RetriesAreTransparent | commands.py:31-44 | Retry and DoubleRetry execute the wrapped command once and pass on its outcome. |
| GameCommands.MoveWithFuelTooLittle | tests/test_commands/test_move_with_fuel.py:51-60 | With too little fuel, check-move-burn raises CommandException and writes neither position nor fuel. |
| GameCommands.MoveWithFuelEnough | tests/test_commands/test_move_with_fuel.py:40-49 | With enough fuel, check-move-burn moves the object by its velocity and then burns exactly the consumption: exactly those two writes, in that order. |
| GameCommands.RotateWithChangeVelocityWrites | features/rotation/commands.py:11-47 | When every accessor works and the number of directions is not zero, the macro succeeds and writes first the new direction and then the steered velocity, nothing else. |
| GameCommands.RotateFailureSkipsChangeVelocity | features/rotation/commands.py:43-47 | When Rotate fails, ChangeVelocity is skipped, the object is untouched, and CommandException is raised. |
| GameCommands.MoveIsUndoneByOppositeVelocity | move.py:24-25 | Moving with the opposite velocity brings the object back to where it was. |
| GameCommands.RotationsCompose | rotate.py:26-29 | For any non-zero number of directions, positive or negative, rotating by `w1` and then by `w2` leaves the same direction as one rotation by `w1 + w2`. |
| GameCommands.RotatesByDafnyMod | commands.py:16-19 | For a positive number of directions, Python's `%` in Rotate agrees with Dafny's `%`. |
| GameCommands.WorkedExamples | tests.py:13-61 | The move and rotate example values: (12, 5) moved by (-7, 3) is (5, 8), and 13 turned by 5 of 16 directions is 2. |
| GameCommands.FuelExamples | tests/test_commands/test_fuel.py:10-39 | The fuel example values: level 6 against consumption 4 passes the check and burning leaves 2; against consumption 7 the check raises 'Not enough fuel'. |
| PyMath.FloorMod | features/rotation/commands.py:17 | Python's `%` raises for a zero divisor. For a positive divisor the remainder is in [0, n), for a negative one in (n, 0], and the difference is always a multiple of the divisor. |
| PyMath.PositiveDivisorAgrees | rotate.py:28 | For a positive divisor, Python's `%` is Dafny's `%`. |
| PyMath.AddAfterMod | rotate.py:28 | For any non-zero `n`, positive or negative, reducing with Python's `%` before adding changes nothing. |
| ErrorLog.Message | commands.py:27-28 | The message is the fixed header, then the class name, then '\nException: ', then the exception text. |
| ErrorLog.FirstNewline | commands.py:28 | The index of the first newline, or the length when there is none. |
| ErrorLog.Parse | commands.py:28 | A string that parses is exactly the message of the parts it yields. |
| ErrorLog.ParseInvertsMessage | commands.py:28 | A class name has no newline, so the message determines both the class name and the exception text. |
| ErrorLog.LoggedExample | tests/test_commands/test_log.py:9-17 | A command of class ICommand that raised Exception("Error") gives exactly the message the test expects. |
| Builder.ResolveAll | features/base/builders.py:12 | Names are resolved with the object in description order, one command per name. The first resolve that raises ends the build with that error. |
| Builder.Build | features/base/builders.py:10-13 | `build` first resolves '<operation>.Description', and if that raises, `build` raises the same. Otherwise the result is a MacroCommand with one command per described name, and nothing is executed. |
| Builder.AllConstantTail | features/base/builders.py:12 | Dropping the first name keeps every remaining name registered. |
| Builder.ResolveAllRegistered | features/base/builders.py:12 | When every name is registered, the commands are exactly the registered ones in description order, and the state is unchanged. |
| Builder.UnknownNameFails | features/base/builders.py:12 | An unknown command name makes `build` raise "Unknown dependency" for that name, before any MacroCommand exists. |
| Builder.BuildRegistered | features/base/builders.py:10-13 | With a description and registered names, `build` gives the MacroCommand of the registered commands in order and changes no state. |
| Builder.BuildMovement | features/base/builders.py:10-13 | Building the movement operation described as CheckFuel, Move, BurnFuel gives exactly the check-move-burn macro. |
| Builder.MovementCommands | features/base/builders.py:12 | Each movement name stands for the command of the check-move-burn macro at the same position. |
| Builder.NewDistinctTail | features/movement/commands.py:33-57 | After the first key is added, the remaining keys of a plugin are still distinct and new. |
| Builder.RegisterStep | iocs/scope_based_strategy.py:72-78 | One registration through the container adds exactly one entry to the caller's current scope, or raises 'already registered'. |
| Builder.RegisterAll | features/movement/commands.py:33-57 | A plugin registers its entries one by one through the container. A successful run keeps the state valid and never replaces root or drops a scope; Builder.RegisterAllFresh states exactly what it adds. |
| Builder.AddAllContents | iocs/scope_based_strategy.py:78 | Adding distinct new keys one by one gives exactly the old entries together with the new ones. |
| Builder.RegisterAllAdds | features/movement/commands.py:33-57 | A plugin whose keys are new succeeds, and its only effect is to add its entries to the caller's current scope. |
| Builder.RegisterAllFresh | features/movement/commands.py:60-90 | A plugin on fresh keys adds exactly its entries to the current scope. Ids, slots, root, the strategy and all other scopes are unchanged. |
| Builder.RegisterAllTwice | features/movement/commands.py:33-57 | Running a plugin a second time in the same scope fails on its first key. |
| Builder.MovePluginKeysDistinct | features/movement/commands.py:35-57 | The four keys of the movement plugin are distinct, and none of them is 'IoC.Register' or 'Scopes.Root'. |
| Builder.FuelPluginKeysDistinct | features/movement/commands.py:62-90 | The five keys of the fuel plugin are distinct, and none of them is 'IoC.Register' or 'Scopes.Root'. |
| Builder.MovePluginOnce | features/movement/commands.py:33-57 | In a scope holding none of its keys, the movement plugin registers all four. A second run there fails on 'IMovable:position.get'. |
| Builder.FuelPluginOnce | features/movement/commands.py:60-90 | In a scope holding none of its keys, the fuel plugin registers all five. A second run there fails on 'IFuelable:fuel_level.get'. |

## Left out

**Threads and I/O**
- Real threads: `Thread.start`, `join`, `daemon`, `task_done`, and interleavings of producer and worker. A worker is a step function, the producer's puts are applied between steps (`ThreadLoop.Put`), and the event-loop worker's queue contents are a parameter.
- `print` (the unhandled-exception message of both loops and the `Log` command): only the text of the `Log` message is modelled.

**Game commands**
- The floating-point part of `ChangeVelocity` (modulus, `cos`, `sin`, `round`): the new velocity is a function parameter `steer`. `numpy` vectors are pairs of integers.
- Bodies.Plus / GameCommands.MoveExec: the wrap-around of numpy's `int64` addition (modulo 2^64) in `Move` is not modelled, because the integers are unbounded. `MoveIsUndoneByOppositeVelocity` would still hold under two's-complement wrap-around.
- GameCommands.ChangeVelocityExec: it does not state which integer velocity the floating-point formula yields, because floating point is not modelled.

**Collaborators**
- `LambdaCommand`, `GetProperty`, `SetProperty`, the adapter strategy, `ExceptionHandler` and `CommandException` are not part of this model. The handler's behaviour is a parameter (`Handler`), and registered closures are opaque values.
- Factories registered by callers are constants. A registered lambda that takes arguments, or does work when called, is not modelled, and `IoC.Register` only takes such a constant.
- The built-in closures of the root scope are called directly rather than through a second resolve. The following cases are not modelled:
  - `create_new_scope` reaching a shadowed 'Scopes.Current' or 'Scopes.Storage';
  - 'Scopes.New' storage built from a resolve of 'Scopes.Storage' (a new scope's map is always empty);
  - an argument of a Python type that `Scopes.Arg` does not represent;
  - a dependency key that is not a string: 'IoC.Register' given such a key raises TypeError in the model, where Python would register it.
- ObjectStrategy.NewScope / ObjectStrategy.Call: some values are refused with a TypeError when the closure is called. For 'Scopes.New' this is a true value that is not a scope. For 'Scopes.Current.Set' it is any value other than a scope or None, including false ones such as 0, '', False and []. Python stores such a value as the parent or in the slot, and fails only later, on the first lookup that reaches it. A parent or slot that holds a foreign object is not modelled.
- IdStrategy.NewScope: a scope id that is not a string is refused with a TypeError. Python stores any hashable id, comparing them with Python's own equality, under which 1 and True are the same id. The id table holds string ids only.
- ThreadStart.StartThread / ThreadStart.EnterAndRegister / Builder.RegisterAll: their own contracts promise only a valid state, an unchanged root and no lost scope, because a constant a caller registered under 'Scopes.New', 'Scopes.Current.Set' or 'IoC.Register' could shadow the built-in. What they create is stated by the lemmas named in their rows, under the condition that the built-ins are still visible.
- ThreadStart.IdOf: `.id` of a value that is not a scope object is reported as a missing attribute; the Python objects that do have an `id` attribute are not modelled.
- An error raised by the model carries no partial state. In Python, a registration or scope creation done before the failing step of a multi-step command stays done; here only the error is returned.

**Other files**
- iocs/scope_based/commands.py (the `StartThreadCommand` that starts a `CommandExecutorThread`) is not part of this model. The event-loop worker is started directly with a parent scope (`EventLoop.Start`).
- `StartThreadCommandPlugin` (thread/commands.py:106-112): one more constant registration; registration itself is modelled.
- main.py, game/commands.py and the interface-only files (interfaces.py, features/base/interfaces.py, features/movement/interfaces.py, features/rotation/interfaces.py) are not part of this model.

**Loops**
- ThreadLoop.Step: the worker loop and the stop flags of `StartThreadCommand` are modelled on their own, not through the container. The `IoC.resolve('Scopes.Current.Set', thread_id)` at the start of each iteration is the slot reset, assumed to succeed. 'Thread.HardStop' and 'Thread.SoftStop' are the stop actions. Commands a queued command puts into the queue itself, other than a repeated command re-enqueueing itself, are not modelled.
- EventLoop.Start: a 'Scopes.New' that some scope shadowed with a non-scope value makes the start fail with a TypeError; Python would go on with whatever that value is.
