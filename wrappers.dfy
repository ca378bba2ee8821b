/**
 * Optional values, Python exceptions and results that carry them.
 *
 * Every operation of the model that can raise returns a Result; the Exc
 * constructor names the Python exception the source raises on that path.
 */
module Wrappers {

  datatype Option<T> = None | Some(value: T)

  /** The Python exceptions the modelled code raises or re-raises. */
  datatype Exc =
    | KeyError(key: string)                 // dict.pop / del of a missing key
    | TypeError(reason: string)             // wrong arity, str + None, ...
    | AttributeError(attribute: string)     // attribute that was never assigned
    | UnboundLocalError(variable: string)   // a local read before any assignment
    | RuntimeError(reason: string)          // a bare `raise` outside any handler
    | FileNotFoundError(path: string)       // os.remove of a path that is not on disk
    | EOFError                              // input() with nothing left to read
    | HttpException(status: nat, detail: string)
    | Exception(message: string)            // `raise Exception(message)`
    | Foreign(message: string)              // a failure inside a library call

  datatype Result<T> = Ok(value: T) | Err(error: Exc)

  /** Python's str(e) for an exception, as used by f"{e}". */
  function ExcText(e: Exc): string
  {
    match e
    case KeyError(k) => "'" + k + "'"
    case TypeError(reason) => reason
    case AttributeError(a) => "object has no attribute '" + a + "'"
    case UnboundLocalError(v) => "cannot access local variable '" + v + "' where it is not associated with a value"
    case RuntimeError(reason) => reason
    case FileNotFoundError(p) => "No such file or directory: '" + p + "'"
    case EOFError => "EOF when reading a line"
    case HttpException(status, detail) => detail
    case Exception(m) => m
    case Foreign(m) => m
  }

  /** Message of a bare `raise` executed while no exception is being handled. */
  const NoActiveException: string := "No active exception to reraise"

  /** Message of `"..." + None`. */
  const ConcatNone: string := "can only concatenate str (not \"NoneType\") to str"
}
