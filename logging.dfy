/**
 * The structured-logging context: a dictionary held by the logging module and replaced
 * wholesale by `LogContext`, merged into records by the formatter, and cleared or reset
 * by the setup helpers.
 */
module Logging {
  import opened Wrappers
  import opened Errors
  import Json

  type Value = Json.Json
  type Context = map<string, Value>

  /** The logging module's `context` attribute; `None` when the attribute is absent. */
  class LogModule {
    var context: Option<Context>

    constructor ()
      ensures context.None?
    {
      context := None;
    }

    /** `getattr(logging, "context", {})`. */
    function Current(): Context
      reads this
    {
      context.GetOr(map[])
    }

    /** `clear_log_context()`: removes the attribute. */
    method Clear()
      modifies this
      ensures context.None? && Current() == map[]
    {
      context := None;
    }

    /** The end of `setup_logging`: the context is reset to an empty dictionary. */
    method Reset()
      modifies this
      ensures context == Some(map[]) && Current() == map[]
    {
      context := Some(map[]);
    }
  }

  /** `LogContext(**kwargs)`: snapshots the context when constructed, not when entered. */
  class LogContext {
    const oldContext: Context
    const merged: Context

    constructor (log: LogModule, kwargs: Context)
      ensures oldContext == log.Current() && merged == oldContext + kwargs
      ensures merged.Keys == oldContext.Keys + kwargs.Keys
      ensures forall k :: k in kwargs ==> merged[k] == kwargs[k]
      ensures forall k :: k in oldContext && k !in kwargs ==> merged[k] == oldContext[k]
    {
      oldContext := log.Current();
      merged := log.Current() + kwargs;
    }

    /** `__enter__`: the merged context becomes current. */
    method Enter(log: LogModule)
      modifies log
      ensures log.context == Some(merged)
    {
      log.context := Some(merged);
    }

    /** `__exit__`: the snapshot is restored exactly; exceptions are not suppressed. */
    method Exit(log: LogModule)
      modifies log
      ensures log.context == Some(oldContext)
    {
      log.context := Some(oldContext);
    }
  }

  /**
   * Two nested contexts: inside the inner one both sets of keys are visible, inner keys
   * winning; after the inner exit the inner-only keys are gone and the outer ones are
   * intact; after the outer exit the context is what it was (`{}` if there was none).
   */
  method Nested(log: LogModule, outer: Context, inner: Context) returns (during: Context, between: Context)
    modifies log
    ensures during == old(log.Current()) + outer + inner
    ensures between == old(log.Current()) + outer
    ensures forall k :: k in inner && k !in outer && k !in old(log.Current()) ==> k !in between
    ensures log.context == Some(old(log.Current()))
  {
    var o := new LogContext(log, outer);
    o.Enter(log);
    var i := new LogContext(log, inner);
    i.Enter(log);
    during := log.Current();
    i.Exit(log);
    between := log.Current();
    o.Exit(log);
  }

  /**
   * `with_log_context(**kwargs)(f)(...)`: `f` runs with the keys visible and its return
   * value or exception passes through; the previous context is restored afterwards.
   * `f` is given as what it returns or raises under the context it sees.
   */
  method WithLogContext<R>(log: LogModule, kwargs: Context, f: Context -> Result<R, Exc>) returns (r: Result<R, Exc>)
    modifies log
    ensures r == f(old(log.Current()) + kwargs)
    ensures log.context == Some(old(log.Current()))
  {
    var c := new LogContext(log, kwargs);
    c.Enter(log);
    r := f(log.Current());
    c.Exit(log);
  }

  /** A log record: its attributes. */
  class LogRecord {
    var attrs: map<string, Value>

    constructor (attrs0: map<string, Value>)
      ensures attrs == attrs0
    {
      attrs := attrs0;
    }
  }

  /** The record after formatting: missing context keys added, `request_id` defaulted to "-". */
  function Enriched(attrs: map<string, Value>, context: Context): map<string, Value> {
    var withContext := map k | k in attrs.Keys + context.Keys :: if k in attrs then attrs[k] else context[k];
    if "request_id" in withContext then withContext else withContext["request_id" := Json.JStr("-")]
  }

  /**
   * The attribute step of `ContextAwareFormatter.format`: each context key is copied onto
   * the record only where the record lacks that attribute, then `request_id` defaults
   * to "-". The text formatting that follows is not modelled.
   */
  method Format(log: LogModule, record: LogRecord)
    modifies record
    ensures record.attrs == Enriched(old(record.attrs), log.Current())
    ensures record.attrs.Keys == old(record.attrs).Keys + log.Current().Keys + {"request_id"}
    ensures forall k :: k in old(record.attrs) ==> record.attrs[k] == old(record.attrs)[k]
    ensures forall k :: k in log.Current() && k !in old(record.attrs) ==> record.attrs[k] == log.Current()[k]
    ensures "request_id" !in old(record.attrs) && "request_id" !in log.Current() ==> record.attrs["request_id"] == Json.JStr("-")
  {
    var context := log.Current();
    ghost var attrs0 := record.attrs;
    var todo := context.Keys;
    while todo != {}
      invariant todo <= context.Keys
      invariant record.attrs.Keys == attrs0.Keys + (context.Keys - todo)
      invariant forall k :: k in attrs0 ==> record.attrs[k] == attrs0[k]
      invariant forall k :: k in context.Keys - todo && k !in attrs0 ==> record.attrs[k] == context[k]
      decreases todo
    {
      var k :| k in todo;
      if k !in record.attrs {
        record.attrs := record.attrs[k := context[k]];
      }
      todo := todo - {k};
    }
    if "request_id" !in record.attrs {
      record.attrs := record.attrs["request_id" := Json.JStr("-")];
    }
  }

  /** Formatting twice adds nothing the first pass did not. */
  lemma {:induction false} EnrichedIdempotent(attrs: map<string, Value>, context: Context)
    ensures Enriched(Enriched(attrs, context), context) == Enriched(attrs, context)
  {
  }
}
