/**
 * The exception taxonomy of the application and the three ways it translates
 * exceptions: the `handle_exception` decorator (exact-type mapping), the
 * `ExceptionContext` context manager (message wrapping) and `convert_exception`.
 *
 * A raised exception is a value `Exc(cls, msg)` where `msg` is `str(e)`; a call that
 * may raise returns `Result<T, Exc>`.
 */
module Errors {
  import opened Wrappers

  /** The application's classes and the Python built-ins that reach them. */
  datatype ErrClass =
    | AppError
    | DataError | DataAccessError | DataValidationError | DataProcessingError
    | ConfigError | ConfigMissingError
    | APIError | APIConnectionError | APIResponseError
    | GeoJSONError
    | ResourceError | ResourceNotFoundError
    // Python built-ins
    | Exception
    | ValueError | JSONDecodeError
    | LookupError | KeyError | IndexError
    | TypeError | AttributeError | EOFError
    | OSError | FileNotFoundError
    | ArithmeticError | ZeroDivisionError

  /** The direct base class, as declared. */
  function Parent(c: ErrClass): (p: Option<ErrClass>)
    ensures p.None? <==> c == Exception
  {
    match c
    case Exception => None
    case AppError | ValueError | LookupError | TypeError | AttributeError | EOFError | OSError | ArithmeticError => Some(Exception)
    case DataError | ConfigError | APIError | GeoJSONError | ResourceError => Some(AppError)
    case DataAccessError | DataValidationError | DataProcessingError => Some(DataError)
    case ConfigMissingError => Some(ConfigError)
    case APIConnectionError | APIResponseError => Some(APIError)
    case ResourceNotFoundError => Some(ResourceError)
    case JSONDecodeError => Some(ValueError)
    case KeyError | IndexError => Some(LookupError)
    case FileNotFoundError => Some(OSError)
    case ZeroDivisionError => Some(ArithmeticError)
  }

  /** The bases of `c`, nearest first and ending at `Exception`: its `__mro__` without `c` and `object`. */
  function Bases(c: ErrClass): seq<ErrClass> {
    match c
    case Exception => []
    case AppError | ValueError | LookupError | TypeError | AttributeError | EOFError | OSError | ArithmeticError => [Exception]
    case DataError | ConfigError | APIError | GeoJSONError | ResourceError => [AppError, Exception]
    case DataAccessError | DataValidationError | DataProcessingError => [DataError, AppError, Exception]
    case ConfigMissingError => [ConfigError, AppError, Exception]
    case APIConnectionError | APIResponseError => [APIError, AppError, Exception]
    case ResourceNotFoundError => [ResourceError, AppError, Exception]
    case JSONDecodeError => [ValueError, Exception]
    case KeyError | IndexError => [LookupError, Exception]
    case FileNotFoundError => [OSError, Exception]
    case ZeroDivisionError => [ArithmeticError, Exception]
  }

  /** `issubclass(c, d)`. */
  predicate IsA(c: ErrClass, d: ErrClass) {
    c == d || d in Bases(c)
  }

  /** The bases are the declared parent followed by the parent's bases. */
  lemma {:induction false} BasesFollowParents(c: ErrClass)
    ensures Parent(c).None? ==> Bases(c) == []
    ensures Parent(c).Some? ==> Bases(c) == [Parent(c).value] + Bases(Parent(c).value)
  {
    if IsAppError(c) {
      AppBasesFollowParents(c);
    } else {
      BuiltinBasesFollowParents(c);
    }
  }

  lemma {:induction false} AppBasesFollowParents(c: ErrClass)
    requires IsAppError(c)
    ensures Parent(c).Some? && Bases(c) == [Parent(c).value] + Bases(Parent(c).value)
  {
  }

  lemma {:induction false} BuiltinBasesFollowParents(c: ErrClass)
    requires !IsAppError(c)
    ensures Parent(c).None? ==> Bases(c) == []
    ensures Parent(c).Some? ==> Bases(c) == [Parent(c).value] + Bases(Parent(c).value)
  {
  }

  /** The classes defined by the application, all of which derive from `AppError` (see `AppErrorFamily`). */
  predicate IsAppError(c: ErrClass) {
    match c
    case AppError | DataError | DataAccessError | DataValidationError | DataProcessingError
      | ConfigError | ConfigMissingError | APIError | APIConnectionError | APIResponseError
      | GeoJSONError | ResourceError | ResourceNotFoundError => true
    case _ => false
  }

  /** The class's `__name__`. */
  function ClassName(c: ErrClass): string {
    match c
    case AppError => "AppError"
    case DataError => "DataError"
    case DataAccessError => "DataAccessError"
    case DataValidationError => "DataValidationError"
    case DataProcessingError => "DataProcessingError"
    case ConfigError => "ConfigError"
    case ConfigMissingError => "ConfigMissingError"
    case APIError => "APIError"
    case APIConnectionError => "APIConnectionError"
    case APIResponseError => "APIResponseError"
    case GeoJSONError => "GeoJSONError"
    case ResourceError => "ResourceError"
    case ResourceNotFoundError => "ResourceNotFoundError"
    case Exception => "Exception"
    case ValueError => "ValueError"
    case JSONDecodeError => "JSONDecodeError"
    case LookupError => "LookupError"
    case KeyError => "KeyError"
    case IndexError => "IndexError"
    case TypeError => "TypeError"
    case AttributeError => "AttributeError"
    case EOFError => "EOFError"
    case OSError => "OSError"
    case FileNotFoundError => "FileNotFoundError"
    case ArithmeticError => "ArithmeticError"
    case ZeroDivisionError => "ZeroDivisionError"
  }

  /** A raised exception: its class and `str(e)`. */
  datatype Exc = Exc(cls: ErrClass, msg: string)

  /** A mapping for `handle_exception` whose targets are all application errors. */
  predicate AppTargets(mapping: map<ErrClass, ErrClass>) {
    forall k :: k in mapping ==> IsAppError(mapping[k])
  }

  /**
   * The `handle_exception` decorator applied to the outcome of the wrapped call: an
   * application error is re-raised unchanged; any other exception whose exact class is
   * a key of `mapping` becomes the mapped class with the same message; anything else
   * becomes `AppError("Unexpected error: <msg>")`.
   */
  function HandleException<T>(r: Result<T, Exc>, mapping: map<ErrClass, ErrClass>): (out: Result<T, Exc>)
    ensures r.Success? ==> out == r
    ensures out.Failure? <==> r.Failure?
    ensures AppTargets(mapping) && out.Failure? ==> IsAppError(out.error.cls)
  {
    match r
    case Success(_) => r
    case Failure(e) =>
      if IsAppError(e.cls) then r
      else if e.cls in mapping then Failure(Exc(mapping[e.cls], e.msg))
      else Failure(Exc(AppError, "Unexpected error: " + e.msg))
  }

  /**
   * `ExceptionContext(op, cls).__exit__` applied to the outcome of the guarded block:
   * no exception passes, an application error propagates unchanged, and any other
   * exception is replaced by `cls("Error in <op>: <msg>")`.
   */
  function ExceptionContext<T>(op: string, cls: ErrClass, r: Result<T, Exc>): (out: Result<T, Exc>)
    ensures r.Success? ==> out == r
    ensures out.Failure? <==> r.Failure?
    ensures IsAppError(cls) && out.Failure? ==> IsAppError(out.error.cls)
  {
    match r
    case Success(_) => r
    case Failure(e) =>
      if IsAppError(e.cls) then r
      else Failure(Exc(cls, "Error in " + op + ": " + e.msg))
  }

  /** The message `ExceptionContext` gives an exception it converts. */
  function ContextMessage(op: string, msg: string): string {
    "Error in " + op + ": " + msg
  }

  /** `convert_exception(e, cls, message)`: `message or str(e)` in class `cls`. */
  function ConvertException(e: Exc, cls: ErrClass, message: Option<string>): (out: Exc)
    ensures out.cls == cls
    ensures message.Some? && message.value != "" ==> out.msg == message.value
    ensures message.None? || message.value == "" ==> out.msg == e.msg
  {
    Exc(cls, if message.Some? && message.value != "" then message.value else e.msg)
  }

  // ---------------------------------------------------------------------------
  // The class tree

  /** The declared tree: the data, configuration, API, GeoJSON and resource families. */
  lemma {:induction false} Hierarchy()
    ensures IsA(DataAccessError, DataError) && IsA(DataValidationError, DataError) && IsA(DataProcessingError, DataError)
    ensures IsA(DataError, AppError) && IsA(ConfigMissingError, ConfigError) && IsA(ConfigError, AppError)
    ensures IsA(APIConnectionError, APIError) && IsA(APIResponseError, APIError) && IsA(APIError, AppError)
    ensures IsA(GeoJSONError, AppError) && IsA(ResourceError, AppError) && IsA(ResourceNotFoundError, ResourceError)
  {
    assert Bases(DataAccessError)[0] == DataError && Bases(DataValidationError)[0] == DataError;
    assert Bases(DataProcessingError)[0] == DataError && Bases(ConfigMissingError)[0] == ConfigError;
    assert Bases(APIConnectionError)[0] == APIError && Bases(APIResponseError)[0] == APIError;
    assert Bases(ResourceNotFoundError)[0] == ResourceError;
  }

  /** The families are disjoint, and the built-in errors are not application errors. */
  lemma {:induction false} FamiliesDisjoint()
    ensures !IsA(DataError, APIError) && !IsA(APIError, DataError) && !IsA(GeoJSONError, DataError)
    ensures !IsA(ValueError, AppError) && !IsA(KeyError, AppError) && !IsA(AppError, ValueError)
  {
  }

  /** The bases of a base are bases too. */
  lemma {:induction false} BasesClosed(a: ErrClass, b: ErrClass, x: ErrClass)
    requires b in Bases(a) && x in Bases(b)
    ensures x in Bases(a)
    decreases |Bases(a)|
  {
    BasesFollowParents(a);
    var p := Parent(a).value;
    if b != p {
      BasesClosed(p, b, x);
    }
  }

  /** Subclassing is transitive. */
  lemma {:induction false} IsATransitive(a: ErrClass, b: ErrClass, c: ErrClass)
    requires IsA(a, b) && IsA(b, c)
    ensures IsA(a, c)
  {
    if a != b && b != c {
      BasesClosed(a, b, c);
    }
  }

  /** No class is among its own bases, so subclassing is antisymmetric: the tree has no cycles. */
  lemma {:induction false} IsAAntisymmetric(a: ErrClass, b: ErrClass)
    requires IsA(a, b) && IsA(b, a)
    ensures a == b
  {
    if a != b {
      BasesClosed(a, b, a);
      NoCycles(a);
    }
  }

  lemma {:induction false} NoCycles(c: ErrClass)
    ensures c !in Bases(c)
  {
  }

  /** The application classes are exactly the subclasses of `AppError`. */
  lemma {:induction false} AppErrorFamily(c: ErrClass)
    ensures IsAppError(c) <==> IsA(c, AppError)
  {
  }

  // ---------------------------------------------------------------------------
  // handle_exception

  /** An application error comes out exactly as it went in. */
  lemma {:induction false} HandleExceptionKeepsAppErrors<T>(e: Exc, mapping: map<ErrClass, ErrClass>)
    requires IsAppError(e.cls)
    ensures HandleException(Failure(e), mapping) == Result<T, Exc>.Failure(e)
  {
  }

  /**
   * Only the exact class is looked up: an exception whose own class is not a key is
   * reported as unexpected even when one of its base classes is a key.
   */
  lemma {:induction false} HandleExceptionExactType<T>(e: Exc, mapping: map<ErrClass, ErrClass>)
    requires !IsAppError(e.cls)
    ensures e.cls in mapping ==> HandleException(Result<T, Exc>.Failure(e), mapping) == Failure(Exc(mapping[e.cls], e.msg))
    ensures e.cls !in mapping ==> HandleException(Result<T, Exc>.Failure(e), mapping) == Failure(Exc(AppError, "Unexpected error: " + e.msg))
  {
  }

  /** `{Exception: DataAccessError}` does not catch a `ValueError`. */
  lemma {:induction false} HandleExceptionSupertypeKeyIgnored(msg: string)
    ensures HandleException(Result<int, Exc>.Failure(Exc(ValueError, msg)), map[Exception := DataAccessError])
         == Failure(Exc(AppError, "Unexpected error: " + msg))
  {
  }

  /** Decorating twice is the same as decorating once, when the mapping targets application errors. */
  lemma {:induction false} HandleExceptionIdempotent<T>(r: Result<T, Exc>, mapping: map<ErrClass, ErrClass>, mapping2: map<ErrClass, ErrClass>)
    requires AppTargets(mapping)
    ensures HandleException(HandleException(r, mapping), mapping2) == HandleException(r, mapping)
  {
  }

  // ---------------------------------------------------------------------------
  // ExceptionContext

  /** The converted message names the operation and carries the original message as its tail. */
  lemma {:induction false} ExceptionContextMessage<T>(op: string, cls: ErrClass, e: Exc)
    requires !IsAppError(e.cls)
    ensures var out := ExceptionContext(op, cls, Result<T, Exc>.Failure(e));
            out.Failure? && out.error.cls == cls && out.error.msg == ContextMessage(op, e.msg)
            && out.error.msg[|out.error.msg| - |e.msg|..] == e.msg
  {
  }

  /**
   * Nested contexts: once an inner context has converted an exception, an outer
   * context with an application-error class leaves it alone.
   */
  lemma {:induction false} ExceptionContextNested<T>(inner: string, innerCls: ErrClass, outer: string, outerCls: ErrClass, r: Result<T, Exc>)
    requires IsAppError(innerCls)
    ensures ExceptionContext(outer, outerCls, ExceptionContext(inner, innerCls, r)) == ExceptionContext(inner, innerCls, r)
  {
  }

  /** A context inside a decorated function: the decorator passes whatever the context raised. */
  lemma {:induction false} ExceptionContextThenHandle<T>(op: string, cls: ErrClass, r: Result<T, Exc>, mapping: map<ErrClass, ErrClass>)
    requires IsAppError(cls)
    ensures HandleException(ExceptionContext(op, cls, r), mapping) == ExceptionContext(op, cls, r)
  {
  }
}
