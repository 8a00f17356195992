/** `bitcoinrpc(*args)`: one RPC call under the retry decorator
    (bitcoind-monitor.py:166-179). The network and the clock are replaced by a
    script: the outcomes of the successive attempts made before the retry
    budget ran out, in order. Every retryable failure is reported to
    `on_retry` before the next attempt; once the script is spent, the retry
    library raises its timeout error; any other failure is raised unchanged
    at once. */
module Gateway {
  import opened Metrics
  import opened Errors

  datatype CallOutcome<+T> = Returned(value: T) | Raised(error: Exn)

  /** How a call ended, and the failures handed to `on_retry` on the way, in order. */
  datatype Resolution<+T> = Resolution(outcome: CallOutcome<T>, retried: seq<Exn>)

  predicate RetryableFailure<T>(o: CallOutcome<T>) {
    o.Raised? && ErrorEvaluator(o.error)
  }

  /** The attempts in order: an answer or a non-retryable failure ends the
      call at once; a retryable failure is reported and the next attempt is
      made; when no attempt is left, the call raises the timeout error. */
  function Retry<T>(script: seq<CallOutcome<T>>): (r: Resolution<T>)
    decreases |script|
  {
    if |script| == 0 then Resolution(Raised(RetryTimeoutError), [])
    else match script[0]
      case Returned(v) => Resolution(Returned(v), [])
      case Raised(e) =>
        if !ErrorEvaluator(e) then Resolution(Raised(e), [])
        else
          var rest := Retry(script[1..]);
          Resolution(rest.outcome, [e] + rest.retried)
  }

  /** The reported failures are exactly the leading retryable failures of the
      script. The attempt after them, if any, decides the outcome; when every
      attempt failed retryably, all of them were reported and the call raises
      the timeout error. */
  lemma {:induction false} RetryShape<T>(script: seq<CallOutcome<T>>)
    ensures var r := Retry(script);
            |r.retried| <= |script|
    ensures var r := Retry(script);
            forall i :: 0 <= i < |r.retried| ==>
              script[i] == Raised(r.retried[i]) && ErrorEvaluator(r.retried[i])
    ensures var r := Retry(script);
            |r.retried| < |script| ==> !RetryableFailure(script[|r.retried|]) && r.outcome == script[|r.retried|]
    ensures var r := Retry(script);
            |r.retried| == |script| ==> r.outcome == Raised(RetryTimeoutError)
    decreases |script|
  {
    if |script| > 0 && script[0].Raised? && ErrorEvaluator(script[0].error) {
      RetryShape(script[1..]);
      var r := Retry(script);
      var rest := Retry(script[1..]);
      assert r.retried == [script[0].error] + rest.retried;
      forall i | 0 < i < |r.retried|
        ensures script[i] == Raised(r.retried[i]) && ErrorEvaluator(r.retried[i])
      {
        assert r.retried[i] == rest.retried[i - 1];
        assert script[i] == script[1..][i - 1];
      }
      if |r.retried| < |script| {
        assert script[|r.retried|] == script[1..][|rest.retried|];
      }
    }
  }

  /** A daemon that fails transiently and then answers, within the budget,
      yields that answer, and every transient failure was reported once. */
  lemma {:induction false} RetryRecovers<T>(errs: seq<Exn>, v: T)
    requires forall i :: 0 <= i < |errs| ==> ErrorEvaluator(errs[i])
    ensures var script := seq(|errs|, i requires 0 <= i < |errs| => Raised(errs[i])) + [Returned(v)];
            Retry(script) == Resolution(Returned(v), errs)
    decreases |errs|
  {
    var script := seq(|errs|, i requires 0 <= i < |errs| => Raised(errs[i])) + [Returned(v)];
    if |errs| > 0 {
      RetryRecovers(errs[1..], v);
      var tail := seq(|errs| - 1, i requires 0 <= i < |errs| - 1 => Raised(errs[1..][i])) + [Returned(v)];
      assert script[1..] == tail;
      assert [errs[0]] + errs[1..] == errs;
    }
  }

  /** A daemon that keeps failing transiently exhausts the budget: every
      failure is reported, in order, and the call then raises the retry
      library's timeout error, a `RetryError`. */
  lemma {:induction false} RetryExhausts<T>(errs: seq<Exn>)
    requires forall i :: 0 <= i < |errs| ==> ErrorEvaluator(errs[i])
    ensures var script: seq<CallOutcome<T>> := seq(|errs|, i requires 0 <= i < |errs| => Raised(errs[i]));
            Retry(script) == Resolution(Raised(RetryTimeoutError), errs)
    ensures IsInstance(RetryTimeoutError, RetryErrorClass)
    decreases |errs|
  {
    var script: seq<CallOutcome<T>> := seq(|errs|, i requires 0 <= i < |errs| => Raised(errs[i]));
    if |errs| > 0 {
      RetryExhausts<T>(errs[1..]);
      assert script[1..] == seq(|errs| - 1, i requires 0 <= i < |errs| - 1 => Raised(errs[1..][i]));
      assert [errs[0]] + errs[1..] == errs;
    }
  }

  /** An attempt whose failure `error_evaluator` rejects ends the call with
      that very failure, whatever attempts the budget would still allow, and
      nothing is reported: so a missing key, a malformed reply or an error
      reply is never retried. */
  lemma NonRetryableRaisedAtOnce<T>(e: Exn, later: seq<CallOutcome<T>>)
    requires !ErrorEvaluator(e)
    ensures Retry([Raised(e)] + later) == Resolution(Raised(e), [])
  {
    assert ([Raised(e)] + later)[0] == Raised(e);
  }

  /** A call as the refresh sees it: the counter updates made by `on_retry`, then the outcome. */
  datatype Called<+T> = Called(values: Store, outcome: CallOutcome<T>)

  function Rpc<T>(s: Store, script: seq<CallOutcome<T>>): (c: Called<T>)
    ensures c.outcome == Retry(script).outcome
    ensures forall errType :: ValueOr0(c.values, ErrorSeries(errType))
              == ValueOr0(s, ErrorSeries(errType)) + Occurrences(Retry(script).retried, errType) as real
    ensures forall k: Series :: k.metric != ExporterErrors ==> Unchanged(s, c.values, k)
    ensures Grows(s, c.values)
  {
    var r := Retry(script);
    CountAllCounts(s, r.retried);
    Called(CountAll(s, r.retried), r.outcome)
  }
}
