/** The exporter's metric registry, as a value: one constructor per metric object
    of the exporter (bitcoind-monitor.py:30-108), a series key that adds the
    label values, and a store mapping every series that exists to its current
    value. Prometheus exposes a series from the moment it is created, so
    creation and writing are both map updates; nothing is ever removed. */
module Metrics {
  import Decimal

  datatype Metric =
    | Blocks | Difficulty | Peers
    | HashpsNeg1 | Hashps1 | Hashps
    | EstSmartFee(target: int)
    | Warnings
    | Uptime
    | MeminfoUsed | MeminfoFree | MeminfoTotal | MeminfoLocked
    | MeminfoChunksUsed | MeminfoChunksFree
    | MempoolBytes | MempoolSize | MempoolUsage
    | LatestBlockHeight | LatestBlockWeight | LatestBlockSize | LatestBlockTxs
    | NumChaintips
    | TotalBytesRecv | TotalBytesSent
    | LatestBlockInputs | LatestBlockOutputs | LatestBlockValue
    | BanCreated | BannedUntil
    | ServerVersion | ProtocolVersion
    | SizeOnDisk | VerificationProgress
    | ExporterErrors
  {
    /** Counters only ever go up; every other metric is a gauge. */
    predicate IsCounter() {
      Warnings? || ExporterErrors?
    }
  }

  const FeeNamePrefix: string := "bitcoin_est_smart_fee_"

  /** The name the metric is registered under. */
  function Name(m: Metric): string {
    match m
    case Blocks => "bitcoin_blocks"
    case Difficulty => "bitcoin_difficulty"
    case Peers => "bitcoin_peers"
    case HashpsNeg1 => "bitcoin_hashps_neg1"
    case Hashps1 => "bitcoin_hashps_1"
    case Hashps => "bitcoin_hashps"
    case EstSmartFee(n) => FeeNamePrefix + Decimal.IntToString(n)
    case Warnings => "bitcoin_warnings"
    case Uptime => "bitcoin_uptime"
    case MeminfoUsed => "bitcoin_meminfo_used"
    case MeminfoFree => "bitcoin_meminfo_free"
    case MeminfoTotal => "bitcoin_meminfo_total"
    case MeminfoLocked => "bitcoin_meminfo_locked"
    case MeminfoChunksUsed => "bitcoin_meminfo_chunks_used"
    case MeminfoChunksFree => "bitcoin_meminfo_chunks_free"
    case MempoolBytes => "bitcoin_mempool_bytes"
    case MempoolSize => "bitcoin_mempool_size"
    case MempoolUsage => "bitcoin_mempool_usage"
    case LatestBlockHeight => "bitcoin_latest_block_height"
    case LatestBlockWeight => "bitcoin_latest_block_weight"
    case LatestBlockSize => "bitcoin_latest_block_size"
    case LatestBlockTxs => "bitcoin_latest_block_txs"
    case NumChaintips => "bitcoin_num_chaintips"
    case TotalBytesRecv => "bitcoin_total_bytes_recv"
    case TotalBytesSent => "bitcoin_total_bytes_sent"
    case LatestBlockInputs => "bitcoin_latest_block_inputs"
    case LatestBlockOutputs => "bitcoin_latest_block_outputs"
    case LatestBlockValue => "bitcoin_latest_block_value"
    case BanCreated => "bitcoin_ban_created"
    case BannedUntil => "bitcoin_banned_until"
    case ServerVersion => "bitcoin_server_version"
    case ProtocolVersion => "bitcoin_protocol_version"
    case SizeOnDisk => "bitcoin_size_on_disk"
    case VerificationProgress => "bitcoin_verification_progress"
    case ExporterErrors => "bitcoin_exporter_errors"
  }

  /** Two fee-estimate gauges get the same registered name only when they are for
      the same confirmation target, so the lazily created family never trips the
      registry's duplicate-name check. */
  lemma FeeNamesDistinct(a: int, b: int)
    ensures Name(EstSmartFee(a)) == Name(EstSmartFee(b)) <==> a == b
  {
    var pa, pb := Name(EstSmartFee(a)), Name(EstSmartFee(b));
    if pa == pb {
      assert pa[|FeeNamePrefix|..] == Decimal.IntToString(a);
      assert pb[|FeeNamePrefix|..] == Decimal.IntToString(b);
      Decimal.IntToStringInjective(a, b);
    }
  }

  /** One time series: a metric plus its label name/value pairs, in declaration order. */
  datatype Series = Series(metric: Metric, labels: seq<(string, string)>)

  function Plain(m: Metric): Series {
    Series(m, [])
  }

  type Store = map<Series, real>

  /** The current value of a series, zero for one not created yet: a labelled
      counter child starts from zero when `labels(...)` first creates it. */
  function ValueOr0(s: Store, k: Series): real {
    if k in s then s[k] else 0.0
  }

  /** `k` is present in both stores with the same value, or absent from both. */
  predicate Unchanged(s: Store, s': Store, k: Series) {
    (k in s <==> k in s') && (k in s ==> s'[k] == s[k])
  }

  /** `gauge.set(v)` (creating the series if it did not exist yet). */
  function SetGauge(s: Store, k: Series, v: real): (s': Store)
    ensures k in s' && s'[k] == v
    ensures s'.Keys == s.Keys + {k}
    ensures forall j :: j != k ==> Unchanged(s, s', j)
  {
    s[k := v]
  }

  /** `counter.inc()`: one more than before, starting from zero. */
  function IncCounter(s: Store, k: Series): (s': Store)
    ensures k in s' && s'[k] == ValueOr0(s, k) + 1.0
    ensures s'.Keys == s.Keys + {k}
    ensures forall j :: j != k ==> Unchanged(s, s', j)
  {
    s[k := ValueOr0(s, k) + 1.0]
  }

  /** What one refresh may do to a store: series are never removed, counters
      never go down. */
  predicate Grows(s: Store, s': Store) {
    && s.Keys <= s'.Keys
    && forall k :: k in s && k.metric.IsCounter() ==> s[k] <= s'[k]
  }

  lemma GrowsTransitive(s0: Store, s1: Store, s2: Store)
    requires Grows(s0, s1) && Grows(s1, s2)
    ensures Grows(s0, s2)
  {
  }

  /** A gauge handle as `prometheus_client.Gauge(name, documentation)` creates
      it; its name and help text are determined by the metric it stands for. */
  datatype Gauge = Gauge(metric: Metric) {
    function GaugeName(): string {
      Name(metric)
    }
  }

  /** The store plus the fee-estimate gauge cache keyed by confirmation target
      (bitcoind-monitor.py:43). */
  datatype Registry = Registry(values: Store, feeGauges: map<int, Gauge>)

  function FeeGauge(n: int): (g: Gauge)
    ensures g.metric == EstSmartFee(n)
  {
    Gauge(EstSmartFee(n))
  }

  /** Every cached gauge is the one created for its own target, and its series exists. */
  predicate CacheConsistent(r: Registry) {
    forall n :: n in r.feeGauges ==> r.feeGauges[n] == FeeGauge(n) && Plain(EstSmartFee(n)) in r.values
  }

  /** A fee-estimate series exists only for a target whose gauge is cached. */
  predicate FeeSeriesCached(r: Registry) {
    forall k :: k in r.values && k.metric.EstSmartFee? ==> k.metric.target in r.feeGauges
  }

  predicate Valid(r: Registry) {
    CacheConsistent(r) && FeeSeriesCached(r)
  }

  /** Registries the exporter can reach: the cache is only filled by `smartfee_gauge`. */
  type ValidRegistry = r: Registry | Valid(r) witness Registry(map[], map[])

  /** The registry one refresh may leave behind: the store grows and the
      cache only gains entries. */
  predicate RegistryGrows(r: Registry, r': Registry) {
    && Grows(r.values, r'.values)
    && r.feeGauges.Keys <= r'.feeGauges.Keys
    && forall n :: n in r.feeGauges ==> r'.feeGauges[n] == r.feeGauges[n]
  }

  lemma RegistryGrowsTransitive(r0: Registry, r1: Registry, r2: Registry)
    requires RegistryGrows(r0, r1) && RegistryGrows(r1, r2)
    ensures RegistryGrows(r0, r2)
  {
  }
}
