/** The exceptions the modelled code raises, and the two result shapes used
    throughout: `Result<T>` for operations that produce a value or raise, and
    `Outcome` for commands whose `execute` returns nothing or raises. */
module Errors {

  datatype Error =
    /** KeyError "Unknown dependency '<key>'": no scope on the chain defines the key. */
    | UnknownDependency(key: string)
    /** 'Dependency already registered': the key is already in the current scope. */
    | AlreadyRegistered(key: string)
    /** 'Cannot register dependency - unknown scope': the caller's slot holds no scope. */
    | UnknownScope
    /** AttributeError: the caller's current-scope slot was never set. */
    | SlotNeverSet
    /** 'Cannot identify parent scope!' */
    | NoParentScope
    /** 'Scope with id <id> aleready exists' */
    | ScopeExists(id: string)
    /** KeyError raised by indexing the scope-id table with an unknown id. */
    | UnknownScopeId(id: string)
    /** KeyError raised by indexing the scope-id table with a value that is
        not a string: the table only ever holds string ids. */
    | UnknownScopeKey
    /** AttributeError: an attribute was read from `None` (no root, no current scope). */
    | NoneAttribute
    /** AttributeError: an object without the named attribute. */
    | NoAttribute(name: string)
    /** TypeError: the installed strategy is not callable. */
    | NotCallable
    /** AttributeError: `.execute()` was called on something that is not a command. */
    | NotACommand
    /** IndexError: `args[0]` with no positional arguments. */
    | MissingArgument
    /** TypeError: a built-in factory called with the wrong number or kind of arguments. */
    | ArgumentType
    /** An accessor of a game object (`get_position`, `set_direction`, ...) raised. */
    | AccessorFailed(accessor: string)
    /** ZeroDivisionError from `%` with a zero divisor. */
    | ZeroDivision
    /** A `CommandException` built from a plain message. */
    | Message(text: string)
    /** `CommandException(e)`: the wrapper MacroCommand raises around the first failure. */
    | CommandException(cause: Error)
    /** An error raised by a command the model treats as opaque, identified by its tag. */
    | Raised(tag: nat)

  /** Every error is an `Exception`; only these three are `KeyError`s, which
      is what `except KeyError` in the event loop's stop-flag properties catches. */
  predicate IsKeyError(e: Error) {
    e.UnknownDependency? || e.UnknownScopeId? || e.UnknownScopeKey?
  }

  datatype Result<+T> = Ok(value: T) | Err(error: Error) {
    predicate IsFailure() { Err? }
    function PropagateFailure<U>(): Result<U>
      requires Err?
    {
      Err(error)
    }
    function Extract(): T
      requires Ok?
    {
      value
    }
  }

  /** Python's `None` or a value. */
  datatype Option<+T> = None | Some(value: T)

  /** What `execute()` does: return normally, or raise. */
  datatype Outcome = Done | Failed(error: Error)
}
