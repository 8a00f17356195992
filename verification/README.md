# A Dafny model of the bitcoind Prometheus exporter

`bitcoind-monitor.py` polls a Bitcoin Core daemon over JSON-RPC and publishes
the answers as Prometheus metrics. This project models its core as pure values
and proves properties of that model:

- **The metric registry** (`Metrics`). Every metric object of the exporter is a
  constructor of `Metric`. A series is a metric plus its label pairs. The store
  maps each series that exists to its value. Nothing is ever removed from it,
  and the two counters (`bitcoin_warnings`, `bitcoin_exporter_errors`) never go
  down. The fee-estimate gauges are created lazily and kept in a cache keyed by
  confirmation target.
- **Fee-estimate gauges** (`SmartFee`). `smartfee_gauge` is an insertion-only
  cache. `do_smartfee` skips the write when the daemon has no `feerate`. The
  gauge names embed the target in decimal (`Decimal`), and distinct targets get
  distinct names.
- **Errors and retries** (`Errors`, `Gateway`). An exception is its class plus
  the classes it inherits from. `error_evaluator` is `isinstance` against the
  three transient classes. `on_retry` and `exception_count` add one under the
  label `module.ClassName`. A retried RPC call is modelled by the outcomes of
  its successive attempts.
- **One refresh** (`Refresh`, `BlockTotals`). `refresh_metrics` is modelled as
  a transformer of the registry. It first makes the calls, then writes:
  - the scalar gauges;
  - the fee loop;
  - the ban gauges, keyed by address and reason;
  - the warnings counter, bumped by one when a warning is present;
  - the remaining gauges;
  - the latest block, with input/output counts and value summed over its
    transactions.

  An exception stops the pass where it is raised.
- **The main loop** (`MainLoop`). A `RetryError` is counted and the loop goes
  on. A `JSONDecodeError` exits with status 1. Anything else leaves `main`.
- **The service URL** (`ServiceUrl`). `MonitorProxy` builds
  `scheme://[user:password@]host[:port]` only when a password is set. A small
  parser reads the parts back.

Some facts about the code that the model relies on:

- the latest block is fetched with `getblock <hash> 2`, and its totals are
  computed by walking its transactions; no block-statistics call is made;
- `ban["ban_reason"]` is a plain subscript, so an entry without a reason raises
  `KeyError`, and no default reason label is used;
- the three hash-rate gauges are fixed objects, not a lazily created family;
- the only RPC calls are those of lines 184, 203 and 210-222;
- the main loop refreshes, handles what the refresh raised, then sleeps; it
  has no other scheduler;
- `socket.timeout` is taken as it is on Python 3.10 and later, where it is
  another name for the built-in `TimeoutError`. A timeout is therefore counted
  under `builtins.TimeoutError`.

## Model

| member | source | states |
|---|---|---|
| SmartFee.SmartfeeGauge | bitcoind-monitor.py:191-199 | A cached target gives back the cached gauge and the registry unchanged. A new target gets the gauge `bitcoin_est_smart_fee_<n>`, cached and registered at zero, and nothing else in the cache or store changes. |
| SmartFee.SmartfeeGaugeIdempotent | bitcoind-monitor.py:191-199 | A second lookup of the same target changes nothing and returns the same gauge. |
| SmartFee.SmartfeeGaugesDistinct | bitcoind-monitor.py:192-198 | Two different targets get gauges with different names, and the second lookup keeps the first gauge cached. |
| SmartFee.DoSmartfee | bitcoind-monitor.py:202-206 | No `feerate` means no gauge is created and no write happens. Otherwise the target's gauge is cached and holds the estimate. Only that gauge's series can change. |
| Metrics.FeeNamesDistinct | bitcoind-monitor.py:194-197 | Two fee gauges have the same name if and only if their targets are equal. |
| Decimal.IntToStringRoundTrip | bitcoind-monitor.py:195 | The `%d` rendering of the target has a sign exactly when the target is negative, and it parses back to the same integer. |
| Decimal.IntToStringInjective | bitcoind-monitor.py:195 | Two targets render to the same digits if and only if they are equal. |
| Errors.ErrorEvaluatorClassifies | bitcoind-monitor.py:124-141 | An `InWarmupError` (whatever it inherits), a refused connection (a `ConnectionError` subclass) and a socket timeout are retried. A JSON-RPC error object, a `JSONDecodeError`, a `KeyError` and the retry library's own timeout error are not. No class outside the three, whose ancestors are outside them too, is retried. |
| Errors.ExceptionCount | bitcoind-monitor.py:290-293 | The counter under the error's `module.ClassName` label rises by one from its previous value (zero if absent). Every other series is unchanged. |
| Errors.ErrorsRoseChain | bitcoind-monitor.py:133-137 | The counts added by two consecutive stretches add up to the counts of their failures concatenated. |
| Errors.CountAllCounts | bitcoind-monitor.py:133-137 | After a run of retried failures, each type label's counter has risen by the number of failures with that label. No other metric changes. Counters never go down. |
| Gateway.RetryShape | bitcoind-monitor.py:166-171 | The failures passed to `on_retry` are the leading attempts, in order, each retryable. If an attempt follows them, it is an answer or a non-retryable error, and that is the outcome, returned or raised as is. If none follows, every attempt was a reported retryable failure and the call raises `RetryTimeoutError`. |
| Gateway.RetryRecovers | bitcoind-monitor.py:166-171 | Transient failures followed by an answer yield the answer, and every failure is reported exactly once, in order. |
| Gateway.RetryExhausts | bitcoind-monitor.py:166-171 | Transient failures only end in `RetryTimeoutError`, a `RetryError`, after reporting every one of them, in order. |
| Gateway.NonRetryableRaisedAtOnce | bitcoind-monitor.py:140-171 | A first attempt that raises a non-retryable error raises it at once: no later attempt is made and nothing is reported. |
| Gateway.Rpc | bitcoind-monitor.py:166-179 | A call's outcome is the retry outcome. The error counters rise once per reported failure, and no other metric changes. |
| Refresh.GetBlock | bitcoind-monitor.py:182-188 | The block comes back if and only if the retried `getblock` answered. Any exception, including a spent retry budget, gives `None`. |
| Refresh.FetchAll | bitcoind-monitor.py:210-222 | The calls complete if and only if every call except `getblock` answers. The replies are then the daemon's answers, with the chain-tip list reduced to its length. |
| Refresh.ApplyScalars | bitcoind-monitor.py:224-234 | Each of the eleven scalar gauges holds its reply field, and no other series changes. |
| Refresh.ScalarsGrow | bitcoind-monitor.py:224-234 | Writing the scalar gauges removes no series and lowers no counter. |
| Refresh.FeeStep | bitcoind-monitor.py:202-206 | One estimate call. It fails exactly when the call raises, with that error. Each failure reported to `on_retry` is counted under its type. When it answers, the target's gauge holds the fee, or is untouched when there is none, and only the error counters and this target's gauge can change. When it raises, the fee-gauge cache and every series but the error counters are unchanged. |
| Refresh.FeeLoop | bitcoind-monitor.py:236-237 | The loop raises the error of the first estimate call that raised, and nothing exactly when every call, one per position in the target list, answered. The registry only grows. Only error counters and the gauges of configured targets change. The error counters rise by the failures reported by each call up to and including the first that raised. Whether or not the loop raised, a gauge holds the fee of the last call for its target that gave one before the first call that raised, or is untouched when none did. |
| Refresh.FeeFailure | bitcoind-monitor.py:236-237 | The loop from a position raises nothing if and only if every estimate call from there answered. |
| Refresh.FeeFailureIsFirst | bitcoind-monitor.py:236-237 | When every call before a position answered and the call there raised, the loop raises exactly that call's error. |
| Refresh.FeeLoopStops | bitcoind-monitor.py:236-237 | A raising call that changes nothing but the error counters leaves every fee gauge as the loop from its position decides, since no estimate from there on is written. |
| Refresh.FeeWritesCons | bitcoind-monitor.py:202-237 | A target listed again later is overwritten by the later estimate when that one gives a fee. Otherwise the earlier write survives. |
| Refresh.BanStep | bitcoind-monitor.py:239-245 | An entry without a reason raises `KeyError` before either gauge is written. Otherwise both gauges under (address, reason) hold its times, and only those two series change. |
| Refresh.BanLoop | bitcoind-monitor.py:239-245 | The loop raises nothing if and only if every entry has a reason. Otherwise it raises `KeyError`. Series are never removed. Only the two ban gauges change, and only under the label pairs of the entries. After a complete loop, the last entry with a given (address, reason) has both gauges holding its times. |
| Refresh.BanLoopStopsAtMissingReason | bitcoind-monitor.py:239-245 | A pass that reaches an entry with no reason leaves exactly what the entries before it wrote, and raises `KeyError`. |
| Refresh.CountWarnings | bitcoind-monitor.py:247-248 | The warnings counter rises by one when the warning text is non-empty. Otherwise the store is unchanged. |
| Refresh.ApplyTail | bitcoind-monitor.py:250-264 | The chain-tip gauge holds the number of tips, and the memory, mempool and network-total gauges hold their fields. Nothing else changes. |
| Refresh.TailGrows | bitcoind-monitor.py:250-264 | Writing the remaining gauges removes no series and lowers no counter. |
| Refresh.LatestBlock | bitcoind-monitor.py:266-282 | With no block, the store is unchanged. With a block, the seven latest-block gauges hold its size, transaction count, height, weight, and the input, output and value totals over its transactions. |
| BlockTotals.FoldTotals | bitcoind-monitor.py:271-282 | The accumulating loop computes the recursively defined totals over the transactions. |
| BlockTotals.SumsSnoc | bitcoind-monitor.py:273-278 | Appending a transaction adds its inputs, its outputs and its output value to the three totals. |
| Refresh.Finish | bitcoind-monitor.py:247-282 | The warnings edge, the remaining gauges and the latest block, combined. Only those series change. With no block, the block gauges keep their values. |
| Refresh.AfterFees | bitcoind-monitor.py:239-282 | The pass completes from the ban loop onwards if and only if every ban entry has a reason. On `KeyError`, only ban gauges have changed. |
| Refresh.WritePhase | bitcoind-monitor.py:224-282 | The writes of a pass whose calls all answered. It raises the fee loop's error, else `KeyError` when a ban entry has no reason, else nothing. The scalars are always written and the fee gauges always follow the replies up to the first raising call. Ban gauges change only once every fee call answered, and the warning, tail and block series only when the pass completes; nothing outside those series changes. The error counters rise by the fee calls' reported failures. When it raises, or there is no block, the block gauges keep their values. |
| Refresh.WriteFailure | bitcoind-monitor.py:236-245 | The writes raise nothing if and only if every fee call answered and every ban entry has a reason. A fee call that raised gives the fee loop's error, and otherwise a missing reason gives `KeyError`. |
| Refresh.Pass | bitcoind-monitor.py:209-282 | A pass whose calls failed counts the reported failures and raises the call's error, with every series other than the error counters unchanged. A pass whose calls answered raises what the writes raise, counts the failures its calls reported and then those of the fee calls, writes the scalars and the fee gauges, and changes nothing outside the series the writes reached before they stopped. |
| Refresh.PassFailure | bitcoind-monitor.py:209-245 | A refresh raises nothing if and only if it completes. A failed call gives its own error. Otherwise a raising fee call gives the fee loop's error, and then a ban entry without a reason gives `KeyError`. |
| Refresh.RefreshMetrics | bitcoind-monitor.py:209-282 | The pass raises the failed call's error, else the first raising fee call's error, else `KeyError` for a ban entry without a reason, else nothing. A failed call leaves every series but the error counters unchanged. Otherwise the scalars are copied and each fee gauge holds the last fee given before the first raising fee call. The ban gauges can change only once every fee call answered, and the warning, tail and block series only when the pass completes; nothing else changes. The error counters rise by exactly the failures reported to `on_retry`. A completed pass bumps the warnings counter iff a warning is present and copies the tail gauges and ban times. The latest-block gauges are untouched when `getblock` failed or the pass raised. |
| MainLoop.HandleFailure | bitcoind-monitor.py:312-320 | A completed pass continues. A `RetryError` adds one under its type label and continues. A `JSONDecodeError` exits with status 1, leaving the registry alone. Anything else propagates unchanged. |
| MainLoop.HandleFailureContinues | bitcoind-monitor.py:312-320 | The loop continues if and only if the pass completed or failed with a `RetryError`. An exit always has status 1. |
| MainLoop.ExhaustedRefreshContinues | bitcoind-monitor.py:312-317 | A spent retry budget is counted once under `riprova.exceptions.RetryTimeoutError`, and the loop goes on. |
| MainLoop.RunOnce | bitcoind-monitor.py:309-320 | One refresh behaves as `RefreshMetrics` promises, and its failure is then handled as lines 312-320 say. The loop goes on exactly when nothing or a `RetryError` was raised; otherwise a `JSONDecodeError` exits with status 1 and anything else propagates. Counters never go down and no series is dropped. |
| MainLoop.Run | bitcoind-monitor.py:308-324 | Each pass that ran is recorded with the registry it started from. Each behaves as `RefreshMetrics` promises from that registry, and the next pass starts from what handling its failure left; the first starts from the initial registry and the last result is the final registry. Every pass but the last continued the loop. The run ends with every pass run when none stopped it. Otherwise the last pass raised something other than a `RetryError`, and the verdict is exit status 1 for a `JSONDecodeError` and propagation of the exception for anything else. Counters never go down and no series is dropped. |
| ServiceUrl.ProxyArgsOf | bitcoind-monitor.py:144-155 | A service URL is built if and only if the password is truthy. |
| ServiceUrl.SplitAtJoin | bitcoind-monitor.py:148-151 | Splitting `a + c + b` at the first `c`, when `a` has no `c`, gives back `a` and `b`. |
| ServiceUrl.RoundTripWithUser | bitcoind-monitor.py:145-151 | With a truthy user and password, parsing the built URL gives back the scheme, the quoted user and password, the host, and the port iff it is non-empty. |
| ServiceUrl.RoundTripWithoutUser | bitcoind-monitor.py:145-151 | With a truthy password but no truthy user, the built URL carries no credentials: parsing gives back the scheme, the host and the port iff it is non-empty. |
| ServiceUrl.ServiceUrlRoundTrip | bitcoind-monitor.py:145-151 | Parsing the built URL gives back the scheme and the host. The quoted user and password are present iff the user is also truthy, and the port is present iff it is non-empty. |

## Left out

- Prometheus client internals, the HTTP server, logging, the processing-time
  counter, the sleep between passes, SIGTERM handling and the `lru_cache` on
  the client factory. None of them touch the metrics modelled here except
  `PROCESS_TIME`, which is left out because it measures wall-clock time.
- Environment parsing (lines 111-121). The settings are parameters: the target
  list, the RPC configuration, and the attempt scripts that stand for the retry
  budget.
- The network and JSON decoding. Each call's successive attempt outcomes are
  given as a list; the reply types keep only the fields the exporter reads.
  Missing reply fields other than `ban_reason` are not modelled.
- Gateway.Retry: the exponential backoff and the wall-clock timeout are
  abstracted to how many attempts fit in the budget, so the number of attempts
  is an input. Every retryable failure is passed to `on_retry`; the timeout
  error is raised when the next attempt would start after the budget is spent.
  An empty attempt list means the budget was spent before the first attempt. A
  backoff policy that stops on its own, so that the retry library raises its
  maximum-retries error, is not modelled: the call's timeout is taken to be the
  only limit.
- Floating point: gauge values and the summed output values are `real`, with
  no rounding. Integer replies are stored exactly.
- `quote` (line 148) is an uninterpreted parameter. ServiceUrl.ServiceUrlRoundTrip
  assumes its output never contains `:` or `@`, that the scheme and host
  contain neither, and that the port contains no `@`; without that the URL
  cannot be read back unambiguously.
- MainLoop.Run: a pass that propagates an exception ends the run; what the
  process does afterwards (exit with a traceback) is outside the model.
