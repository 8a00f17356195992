/** The exporter's main loop (bitcoind-monitor.py:297-324): refresh, then
    decide from the exception the refresh raised, if any, whether to carry on.
    The HTTP server, logging, the processing-time counter and the sleep
    between passes are not modelled; the daemon's behaviour in each pass is
    one element of a list. */
module MainLoop {
  import opened Wrappers
  import opened Metrics
  import opened Errors
  import opened RpcTypes
  import opened Refresh

  /** What `main` does after one refresh. */
  datatype Verdict =
    | Continue
    | Exit(status: int)
    | Propagate(error: Exn)

  datatype Handled = Handled(registry: ValidRegistry, verdict: Verdict)

  /** Lines 312-320: a `RetryError` is counted under its own type and the loop
      goes on; a `JSONDecodeError` ends the process with status 1; any other
      exception leaves `main` and ends the process. The clauses are tried in
      the order of the `except` clauses. */
  function HandleFailure(r: ValidRegistry, failure: Option<Exn>): (h: Handled)
    ensures failure.None? ==> h == Handled(r, Continue)
    ensures failure.Some? && IsInstance(failure.value, RetryErrorClass) ==>
              && h.verdict == Continue
              && ValueOr0(h.registry.values, ErrorSeries(TypeLabel(failure.value)))
                 == ValueOr0(r.values, ErrorSeries(TypeLabel(failure.value))) + 1.0
              && forall k: Series :: k != ErrorSeries(TypeLabel(failure.value)) ==>
                   Unchanged(r.values, h.registry.values, k)
    ensures failure.Some? && !IsInstance(failure.value, RetryErrorClass) ==> h.registry == r
    ensures failure.Some? && !IsInstance(failure.value, RetryErrorClass) ==>
              (if IsInstance(failure.value, JsonDecodeErrorClass) then h.verdict == Exit(1)
               else h.verdict == Propagate(failure.value))
    ensures RegistryGrows(r, h.registry)
  {
    match failure
    case None => Handled(r, Continue)
    case Some(e) =>
      if IsInstance(e, RetryErrorClass) then
        var s := ExceptionCount(r.values, e);
        Handled(WithValues(r, s), Continue)
      else if IsInstance(e, JsonDecodeErrorClass) then Handled(r, Exit(1))
      else Handled(r, Propagate(e))
  }

  /** The loop goes on exactly when the refresh completed or failed with a
      `RetryError`; it never ends with a status other than 1. */
  lemma HandleFailureContinues(r: ValidRegistry, failure: Option<Exn>)
    ensures HandleFailure(r, failure).verdict.Continue? <==>
              failure.None? || IsInstance(failure.value, RetryErrorClass)
    ensures HandleFailure(r, failure).verdict.Exit? ==> HandleFailure(r, failure).verdict.status == 1
    ensures HandleFailure(r, failure).verdict.Propagate? ==>
              failure == Some(HandleFailure(r, failure).verdict.error)
  {
  }

  /** A pass that exhausts the retry budget on any call is counted once as a
      retry timeout and does not stop the loop. */
  lemma ExhaustedRefreshContinues(r: ValidRegistry)
    ensures var h := HandleFailure(r, Some(RetryTimeoutError));
            && h.verdict == Continue
            && ValueOr0(h.registry.values, ErrorSeries("riprova.exceptions.RetryTimeoutError"))
               == ValueOr0(r.values, ErrorSeries("riprova.exceptions.RetryTimeoutError")) + 1.0
  {
    assert TypeLabel(RetryTimeoutError) == "riprova.exceptions.RetryTimeoutError";
  }

  /** Whether `main` carries on after a pass that ended with `failure`. */
  predicate Continues(failure: Option<Exn>) {
    failure.None? || IsInstance(failure.value, RetryErrorClass)
  }

  /** The verdict of lines 318-320 on a failure that stops the loop. */
  function StopVerdict(e: Exn): Verdict {
    if IsInstance(e, JsonDecodeErrorClass) then Exit(1) else Propagate(e)
  }

  /** Lines 309-320: one refresh, ending as `p`, and the handling of what it
      raised. */
  method RunOnce(r: ValidRegistry, targets: seq<int>, d: Daemon) returns (p: Partial, h: Handled)
    ensures RefreshSpec(r, targets, d, p)
    ensures h == HandleFailure(p.registry, p.failure)
    ensures RegistryGrows(r, h.registry)
    ensures h.verdict.Continue? <==> Continues(p.failure)
    ensures !Continues(p.failure) ==> h.verdict == StopVerdict(p.failure.value)
  {
    p := RefreshMetrics(r, targets, d);
    h := HandleFailure(p.registry, p.failure);
    HandleFailureContinues(p.registry, p.failure);
    RegistryGrowsTransitive(r, p.registry, h.registry);
  }

  /** `steps[i]` is how the `i`-th pass of `daemons` ended and `regs[i]` the
      registry it started from: each refresh behaves as `RefreshSpec` says,
      and the next starts from what the handling of its failure left, so a
      `RetryError` is counted before the next pass. */
  ghost predicate Recorded(r: ValidRegistry, targets: seq<int>, daemons: seq<Daemon>,
                           steps: seq<Partial>, regs: seq<ValidRegistry>) {
    Chained(StepOf(targets), r, daemons, steps, regs)
  }

  /** One pass from `before`: `RefreshMetrics` met its specification with `p`,
      and `after` is the registry once lines 312-320 handled its failure. */
  ghost predicate Stepped(before: ValidRegistry, targets: seq<int>, d: Daemon, p: Partial, after: ValidRegistry) {
    && RefreshSpec(before, targets, d, p)
    && after == HandleFailure(p.registry, p.failure).registry
  }

  ghost function StepOf(targets: seq<int>): (ValidRegistry, Daemon, Partial, ValidRegistry) -> bool {
    (before: ValidRegistry, d: Daemon, p: Partial, after: ValidRegistry) => Stepped(before, targets, d, p, after)
  }

  /** `regs` starts at `r` and each `steps[i]` leads, under `inputs[i]`, from
      `regs[i]` to `regs[i + 1]` as `step` relates them. */
  ghost predicate Chained<R, I, S>(step: (R, I, S, R) -> bool, r: R, inputs: seq<I>, steps: seq<S>, regs: seq<R>) {
    && |steps| <= |inputs| && |regs| == |steps| + 1 && regs[0] == r
    && forall i :: 0 <= i < |steps| ==> step(regs[i], inputs[i], steps[i], regs[i + 1])
  }

  /** `verdict` is what lines 312-320 decide after the passes `steps`: every
      pass but the last let the loop go on, and the last one decides. */
  predicate Decided(verdict: Verdict, steps: seq<Partial>) {
    && (forall i :: 0 <= i < |steps| - 1 ==> Continues(steps[i].failure))
    && if verdict.Continue? then |steps| == 0 || Continues(steps[|steps| - 1].failure)
       else && 0 < |steps|
            && !Continues(steps[|steps| - 1].failure)
            && verdict == StopVerdict(steps[|steps| - 1].failure.value)
  }

  /** One more pass, handled as `RunOnce` says, keeps the verdict decided. */
  lemma DecidePass(steps: seq<Partial>, p: Partial, verdict: Verdict)
    requires Decided(Continue, steps)
    requires verdict.Continue? <==> Continues(p.failure)
    requires !Continues(p.failure) ==> verdict == StopVerdict(p.failure.value)
    ensures Decided(verdict, steps + [p])
  {
    var steps' := steps + [p];
    forall i | 0 <= i < |steps'| - 1 ensures Continues(steps'[i].failure) {
      assert steps'[i] == steps[i];
    }
  }

  /** The loop of lines 308-324 over the passes `daemons` describes, in
      order, recorded in `steps` and `regs` as `Recorded` says. The loop stops
      at the first pass whose failure is neither absent nor a `RetryError`,
      exiting with status 1 for a `JSONDecodeError` and letting any other
      exception out of `main`; when no pass stops it, every pass runs. */
  method Run(r: ValidRegistry, targets: seq<int>, daemons: seq<Daemon>)
      returns (r': ValidRegistry, verdict: Verdict, steps: seq<Partial>, regs: seq<ValidRegistry>)
    ensures RegistryGrows(r, r')
    ensures Recorded(r, targets, daemons, steps, regs) && regs[|steps|] == r'
    ensures forall i :: 0 <= i < |steps| - 1 ==> Continues(steps[i].failure)
    ensures verdict.Continue? ==>
              |steps| == |daemons| && forall i :: 0 <= i < |steps| ==> Continues(steps[i].failure)
    ensures !verdict.Continue? ==>
              && 0 < |steps|
              && !Continues(steps[|steps| - 1].failure)
              && verdict == StopVerdict(steps[|steps| - 1].failure.value)
  {
    r', verdict, steps, regs := r, Continue, [], [r];
    while |steps| < |daemons| && verdict.Continue?
      invariant Recorded(r, targets, daemons, steps, regs) && regs[|steps|] == r'
      invariant RegistryGrows(r, r')
      invariant Decided(verdict, steps)
      decreases |daemons| - |steps|, if verdict.Continue? then 1 else 0
    {
      var p, h := RunOnce(r', targets, daemons[|steps|]);
      RegistryGrowsTransitive(r, r', h.registry);
      ChainedSnoc(StepOf(targets), r, daemons, steps, regs, p, h.registry);
      DecidePass(steps, p, h.verdict);
      r', verdict, steps, regs := h.registry, h.verdict, steps + [p], regs + [h.registry];
    }
  }

  /** A chain extended by one more related step is still a chain. */
  lemma ChainedSnoc<R, I, S>(step: (R, I, S, R) -> bool, r: R, inputs: seq<I>, steps: seq<S>, regs: seq<R>,
                             p: S, next: R)
    requires Chained(step, r, inputs, steps, regs) && |steps| < |inputs|
    requires step(regs[|steps|], inputs[|steps|], p, next)
    ensures Chained(step, r, inputs, steps + [p], regs + [next])
  {
    var steps', regs' := steps + [p], regs + [next];
    forall i | 0 <= i < |steps|
      ensures step(regs'[i], inputs[i], steps'[i], regs'[i + 1])
    {
      assert steps'[i] == steps[i] && regs'[i] == regs[i] && regs'[i + 1] == regs[i + 1];
    }
    assert steps'[|steps|] == p && regs'[|steps|] == regs[|steps|] && regs'[|steps| + 1] == next;
  }
}
