/**
  The exceptions the request pipeline tells apart. The framework's exception classes
  (CloseConnectionException, BusiException, KoveyException) live in a library that is
  not part of this model; every other Throwable, PHP's own Error, TypeError and
  ArgumentCountError included, is `Other`.
 */
module Exceptions {

  datatype Kind =
    | CloseConnection  // the connection must be closed
    | Busi             // an expected business error
    | Kovey            // a framework error
    | Other            // any other Throwable

  /** A thrown exception: its class, `getMessage()`, `getCode()` and `getTraceAsString()`. */
  datatype Exception = Exception(kind: Kind, message: string, code: int, trace: string)

  /** How a call ends: it returns a value or it throws. */
  datatype Outcome<+T> = Returned(value: T) | Threw(error: Exception)

  /** The Error PHP raises when a function declared with a return type ends without `return`. */
  function MissingReturn(declared: string): (e: Exception)
    ensures e.kind == Other
  {
    Exception(Other, "no return, expected " + declared, 0, "")
  }

  /**
    The Error PHP raises for an unqualified class name that resolves, relative to the
    file's namespace, to a class that does not exist.
   */
  function ClassNotFound(): (e: Exception)
    ensures e.kind == Other
  {
    Exception(Other, "class not found", 0, "")
  }

  /** The TypeError PHP raises when a function returns a value that is not of its declared return type. */
  function ReturnTypeError(declared: string): (e: Exception)
    ensures e.kind == Other
  {
    Exception(Other, "return not of type " + declared, 0, "")
  }

  /** The Error PHP raises for a call to a method that the object's class does not define and no `__call` handles. */
  function UndefinedMethod(name: string): (e: Exception)
    ensures e.kind == Other
  {
    Exception(Other, "call to undefined method " + name, 0, "")
  }
}
