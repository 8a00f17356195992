/** Exceptions as the exporter sees them: a class identity (module path and
    class name) plus the classes it inherits from, so that `isinstance` and
    `type(e).__module__ + "." + type(e).__name__` can both be stated. Also the
    per-type error counter that `on_retry` and `exception_count` bump
    (bitcoind-monitor.py:133-141, 290-293). */
module Errors {
  import opened Metrics

  datatype ClassId = ClassId(modulePath: string, name: string)

  /** An exception value: its own class and every class above it. */
  datatype Exn = Exn(cls: ClassId, bases: set<ClassId>)

  predicate IsInstance(e: Exn, c: ClassId) {
    c == e.cls || c in e.bases
  }

  const ExceptionClass := ClassId("builtins", "Exception")
  const InWarmupErrorClass := ClassId("bitcoin.rpc", "InWarmupError")
  const ConnectionErrorClass := ClassId("builtins", "ConnectionError")
  /** `socket.timeout`: on Python 3.10 and later another name for the built-in
      `TimeoutError`, so a timeout is labelled `builtins.TimeoutError` and a
      plain `TimeoutError` is retried as well. */
  const SocketTimeoutClass := ClassId("builtins", "TimeoutError")
  const RetryErrorClass := ClassId("riprova.exceptions", "RetryError")
  const JsonDecodeErrorClass := ClassId("json.decoder", "JSONDecodeError")
  const KeyErrorClass := ClassId("builtins", "KeyError")

  /** What the retry loop raises once its time budget is spent. */
  const RetryTimeoutError := Exn(ClassId("riprova.exceptions", "RetryTimeoutError"),
                                 {RetryErrorClass, ExceptionClass})

  /** What a dictionary subscript with a missing key raises. */
  const KeyError := Exn(KeyErrorClass, {ClassId("builtins", "LookupError"), ExceptionClass})

  /** `RETRY_EXCEPTIONS` (bitcoind-monitor.py:124-128). */
  const RetryClasses: set<ClassId> := {InWarmupErrorClass, ConnectionErrorClass, SocketTimeoutClass}

  /** `error_evaluator(e)`: `isinstance(e, RETRY_EXCEPTIONS)`. */
  predicate ErrorEvaluator(e: Exn) {
    exists c :: c in RetryClasses && IsInstance(e, c)
  }

  const OSErrorClass := ClassId("builtins", "OSError")
  const ValueErrorClass := ClassId("builtins", "ValueError")

  /** What `socket.create_connection` raises when the daemon refuses the connection. */
  const ConnectionRefused := Exn(ClassId("builtins", "ConnectionRefusedError"),
                                 {ConnectionErrorClass, OSErrorClass, ExceptionClass})

  /** What a read from a silent daemon raises once the socket's timeout passes. */
  const SocketTimeout := Exn(SocketTimeoutClass, {OSErrorClass, ExceptionClass})

  /** What the JSON decoder raises on a malformed reply. */
  const JsonDecodeError := Exn(JsonDecodeErrorClass, {ValueErrorClass, ExceptionClass})

  /** What `bitcoin.rpc` raises when the daemon answers with an error object. */
  const JsonRpcError := Exn(ClassId("bitcoin.rpc", "JSONRPCError"), {ExceptionClass})

  /** How the errors the exporter meets are classified: a daemon still warming
      up, a refused connection (a subclass of `ConnectionError`) and a socket
      timeout are retried; an error reply from the daemon, a malformed reply,
      a missing dictionary key, and the retry library's own timeout error are
      not, nor is any error that derives from none of the three classes. */
  lemma ErrorEvaluatorClassifies(bases: set<ClassId>)
    ensures ErrorEvaluator(Exn(InWarmupErrorClass, bases))
    ensures ErrorEvaluator(ConnectionRefused) && ErrorEvaluator(SocketTimeout)
    ensures !ErrorEvaluator(JsonRpcError) && !ErrorEvaluator(JsonDecodeError)
    ensures !ErrorEvaluator(KeyError) && !ErrorEvaluator(RetryTimeoutError)
    ensures bases !! RetryClasses ==>
              forall c :: c !in RetryClasses ==> !ErrorEvaluator(Exn(c, bases))
  {
    assert InWarmupErrorClass in RetryClasses;
    assert ConnectionErrorClass in RetryClasses;
    assert SocketTimeoutClass in RetryClasses;
  }

  /** The `type` label: the exception's module path, a dot, its class name. */
  function TypeLabel(e: Exn): string {
    e.cls.modulePath + "." + e.cls.name
  }

  function ErrorSeries(errType: string): Series {
    Series(ExporterErrors, [("type", errType)])
  }

  /** `EXPORTER_ERRORS.labels(type=...).inc()`, the shared body of `on_retry`
      and `exception_count`: one more under the error's own type label. */
  function ExceptionCount(s: Store, e: Exn): (s': Store)
    ensures ErrorSeries(TypeLabel(e)) in s'
    ensures s'[ErrorSeries(TypeLabel(e))] == ValueOr0(s, ErrorSeries(TypeLabel(e))) + 1.0
    ensures s'.Keys == s.Keys + {ErrorSeries(TypeLabel(e))}
    ensures forall k :: k != ErrorSeries(TypeLabel(e)) ==> Unchanged(s, s', k)
    ensures Grows(s, s')
  {
    IncCounter(s, ErrorSeries(TypeLabel(e)))
  }

  /** Counting a run of errors one after the other. */
  function CountAll(s: Store, errs: seq<Exn>): Store
    decreases |errs|
  {
    if |errs| == 0 then s else CountAll(ExceptionCount(s, errs[0]), errs[1..])
  }

  /** How many of `errs` carry `errType`: the reference the counter is compared with. */
  function Occurrences(errs: seq<Exn>, errType: string): nat
    decreases |errs|
  {
    if |errs| == 0 then 0
    else (if TypeLabel(errs[0]) == errType then 1 else 0) + Occurrences(errs[1..], errType)
  }

  /** Each type label's error counter went from `s` to `s'` up by the number of `errs` carrying it. */
  ghost predicate ErrorsRose(s: Store, s': Store, errs: seq<Exn>) {
    forall errType :: ValueOr0(s', ErrorSeries(errType))
                      == ValueOr0(s, ErrorSeries(errType)) + Occurrences(errs, errType) as real
  }

  lemma {:induction false} OccurrencesAppend(a: seq<Exn>, b: seq<Exn>, errType: string)
    ensures Occurrences(a + b, errType) == Occurrences(a, errType) + Occurrences(b, errType)
    decreases |a|
  {
    if |a| > 0 {
      assert (a + b)[1..] == a[1..] + b;
      OccurrencesAppend(a[1..], b, errType);
    } else {
      assert a + b == b;
    }
  }

  /** Two stretches of counting make one: the errors of the first, then those of the second. */
  lemma ErrorsRoseChain(s: Store, s1: Store, s2: Store, e1: seq<Exn>, e2: seq<Exn>)
    requires ErrorsRose(s, s1, e1) && ErrorsRose(s1, s2, e2)
    ensures ErrorsRose(s, s2, e1 + e2)
  {
    forall errType ensures ValueOr0(s2, ErrorSeries(errType))
                           == ValueOr0(s, ErrorSeries(errType)) + Occurrences(e1 + e2, errType) as real {
      OccurrencesAppend(e1, e2, errType);
    }
  }

  /** A stretch that leaves every error counter alone counted nothing. */
  lemma ErrorsRoseNone(s: Store, s': Store)
    requires forall k: Series :: k.metric == ExporterErrors ==> Unchanged(s, s', k)
    ensures ErrorsRose(s, s', [])
  {
    forall errType ensures ValueOr0(s', ErrorSeries(errType)) == ValueOr0(s, ErrorSeries(errType)) {
      assert Unchanged(s, s', ErrorSeries(errType));
    }
  }

  /** Counts survive a later stretch that leaves every error counter alone. */
  lemma ErrorsRoseKept(s: Store, s1: Store, s2: Store, errs: seq<Exn>)
    requires ErrorsRose(s, s1, errs)
    requires forall k: Series :: k.metric == ExporterErrors ==> Unchanged(s1, s2, k)
    ensures ErrorsRose(s, s2, errs)
  {
    ErrorsRoseNone(s1, s2);
    ErrorsRoseChain(s, s1, s2, errs, []);
    assert errs + [] == errs;
  }

  /** After counting `errs`, each type label's counter has gone up by the number
      of errors carrying that label, and no other series has changed. */
  lemma {:induction false} CountAllCounts(s: Store, errs: seq<Exn>)
    ensures forall errType :: ValueOr0(CountAll(s, errs), ErrorSeries(errType))
                            == ValueOr0(s, ErrorSeries(errType)) + Occurrences(errs, errType) as real
    ensures forall k: Series :: k.metric != ExporterErrors ==> Unchanged(s, CountAll(s, errs), k)
    ensures Grows(s, CountAll(s, errs))
    decreases |errs|
  {
    if |errs| > 0 {
      var s1 := ExceptionCount(s, errs[0]);
      CountAllCounts(s1, errs[1..]);
      forall errType
        ensures ValueOr0(CountAll(s, errs), ErrorSeries(errType))
                == ValueOr0(s, ErrorSeries(errType)) + Occurrences(errs, errType) as real
      {
        if TypeLabel(errs[0]) != errType {
          assert ErrorSeries(errType) != ErrorSeries(TypeLabel(errs[0]));
          assert Unchanged(s, s1, ErrorSeries(errType));
        }
      }
    }
  }
}
