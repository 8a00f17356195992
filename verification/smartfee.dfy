/** The lazily created fee-estimate gauge family: `smartfee_gauge` looks a gauge
    up by confirmation target and creates it on a miss (bitcoind-monitor.py:191-199);
    `do_smartfee` writes the daemon's estimate through it when there is one
    (bitcoind-monitor.py:202-206). */
module SmartFee {
  import opened Wrappers
  import opened Metrics

  datatype Lookup = Lookup(registry: ValidRegistry, gauge: Gauge)

  /** `smartfee_gauge(n)`: the cached gauge for `n`, or a new one named
      `bitcoin_est_smart_fee_<n>` that is cached and registered at zero. */
  function SmartfeeGauge(r: ValidRegistry, n: int): (l: Lookup)
    ensures l.gauge == FeeGauge(n)
    ensures l.gauge.GaugeName() == FeeNamePrefix + Decimal.IntToString(n)
    ensures n in l.registry.feeGauges && l.registry.feeGauges[n] == l.gauge
    ensures n in r.feeGauges ==> l.registry == r && l.gauge == r.feeGauges[n]
    ensures n !in r.feeGauges ==>
              && l.registry.feeGauges.Keys == r.feeGauges.Keys + {n}
              && l.registry.values.Keys == r.values.Keys + {Plain(EstSmartFee(n))}
              && l.registry.values[Plain(EstSmartFee(n))] == 0.0
    ensures RegistryGrows(r, l.registry)
    ensures forall k: Series :: k.metric != EstSmartFee(n) ==> Unchanged(r.values, l.registry.values, k)
  {
    if n in r.feeGauges then
      Lookup(r, r.feeGauges[n])
    else
      var g := FeeGauge(n);
      var k := Plain(g.metric);
      assert k !in r.values;
      Lookup(Registry(r.values[k := 0.0], r.feeGauges[n := g]), g)
  }

  /** Looking the same target up again changes nothing and yields the same gauge. */
  lemma SmartfeeGaugeIdempotent(r: ValidRegistry, n: int)
    ensures var first := SmartfeeGauge(r, n);
            var second := SmartfeeGauge(first.registry, n);
            second.registry == first.registry && second.gauge == first.gauge
  {
  }

  /** Looking up two targets yields two distinct gauges under distinct names,
      and the second lookup keeps the first one cached. */
  lemma SmartfeeGaugesDistinct(r: ValidRegistry, a: int, b: int)
    requires a != b
    ensures var la := SmartfeeGauge(r, a);
            var lb := SmartfeeGauge(la.registry, b);
            lb.gauge.GaugeName() != la.gauge.GaugeName() && lb.registry.feeGauges[a] == la.gauge
  {
    FeeNamesDistinct(a, b);
  }

  /** `do_smartfee(n)` once the daemon's reply is known: no `feerate` means no
      gauge is created and nothing is written. */
  function DoSmartfee(r: ValidRegistry, n: int, feerate: Option<real>): (r': ValidRegistry)
    ensures feerate.None? ==> r' == r
    ensures feerate.Some? ==>
              && n in r'.feeGauges && r'.feeGauges[n] == FeeGauge(n)
              && Plain(EstSmartFee(n)) in r'.values
              && r'.values[Plain(EstSmartFee(n))] == feerate.value
              && r'.feeGauges.Keys == r.feeGauges.Keys + {n}
    ensures RegistryGrows(r, r')
    ensures forall k: Series :: k.metric != EstSmartFee(n) ==> Unchanged(r.values, r'.values, k)
  {
    match feerate
    case None => r
    case Some(v) =>
      var l := SmartfeeGauge(r, n);
      l.registry.(values := SetGauge(l.registry.values, Plain(l.gauge.metric), v))
  }
}
