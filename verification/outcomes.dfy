/** The engine's error model. The source signals every failure by raising:
    either its own error type (`Error` in the legacy package, `APIException`
    in the newer one), which carries a code and a message, or any other
    exception. Both become the failure side of `Outcome`. */
module Outcomes {
  import opened Base

  /** An application error: `Error(code, msg)` / `APIError(code, message)`. */
  datatype ApiError = ApiError(code: int, message: string)

  /** `Error()` with no arguments: code 0 and an empty message, meaning success. */
  const NoError: ApiError := ApiError(0, "")

  /** Why an exception other than the application error was raised, one
      alternative per `raise` (explicit or implicit) in the engine. */
  datatype Cause =
    | WrongRequestArguments       // a request lacks `module`, `function` or `args`
    | MissingField(key: string)   // an envelope lacks `module` or `function` (ValueError)
    | ModuleNotFound(name: string) // `get_module` on an unknown name (rendered by `str`)
    | FunctionNotFound            // `request` on an unknown function name
    | MissingBucket(tag: string)  // a function tag without a middleware bucket (KeyError)
    | Unhashable(typeName: string) // a list or dict used as a registry key (TypeError)
    | ArgsNotMapping(typeName: string) // `f(**args)` with non-object args (TypeError)
    | MiddlewareLocked            // `register_middleware` after a function was registered
    | BodyNotObject(typeName: string) // `req.keys()` on a body that is not an object
    | NoResponse                  // `.response` read from a response that is `None`
    | Foreign(message: string)    // raised by a handler or middleware

  datatype Failure =
    | Raised(error: ApiError)     // the application error type
    | Fault(cause: Cause)         // every other exception

  /** A computation that returns a value or raises. */
  datatype Outcome<+T> = Ok(value: T) | Err(failure: Failure) {
    predicate IsFailure() {
      Err?
    }

    function PropagateFailure<U>(): Outcome<U>
      requires Err?
    {
      Err(failure)
    }

    function Extract(): T
      requires Ok?
    {
      value
    }
  }

  /** Python's `str(e)` for the exception a cause stands for. */
  function Describe(c: Cause): string {
    match c
    case WrongRequestArguments => "wrong request arguments"
    case MissingField(key) => "missing required field: " + key
    case ModuleNotFound(name) => name + " not in modules"
    case FunctionNotFound => "function not found"
    case MissingBucket(tag) => "'" + tag + "'"
    case Unhashable(t) => "unhashable type: '" + t + "'"
    case ArgsNotMapping(t) => "argument after ** must be a mapping, not " + t
    case MiddlewareLocked => "Can't register middleware after called function"
    case BodyNotObject(t) => "'" + t + "' object has no attribute 'keys'"
    case NoResponse => "'NoneType' object has no attribute 'response'"
    case Foreign(message) => message
  }
}
