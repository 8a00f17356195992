/** `refresh_metrics()` as a transformer of the registry (bitcoind-monitor.py:209-282).
    The pass first makes every RPC call but the fee estimates
    (lines 210-222), and only then writes: scalar gauges (224-234), fee
    estimates, which make their own calls (236-237), ban gauges (239-245), the
    warnings counter (247-248), the remaining gauges (250-264) and the latest
    block (266-282). An exception ends the pass where it is raised; whatever
    was written before it stays. */
module Refresh {
  import opened Wrappers
  import opened Metrics
  import opened Errors
  import opened Gateway
  import opened RpcTypes
  import opened BlockTotals
  import opened SmartFee

  // ---------------------------------------------------------------------------
  // Calls

  /** `get_block(hash)`: the block, or `None` when the call raised anything at
      all, after the same retries as any other call. */
  function GetBlock(script: seq<CallOutcome<Block>>): (b: Option<Block>)
    ensures Retry(script).outcome.Returned? <==> b.Some?
    ensures b.Some? ==> b.value == Retry(script).outcome.value
  {
    match Retry(script).outcome
    case Returned(blk) => Some(blk)
    case Raised(_) => None
  }

  /** The replies of the calls made before anything is written. */
  datatype Fetched = Fetched(
    uptime: int, meminfo: MemInfo, chain: ChainInfo, network: NetworkInfo,
    chainTips: nat, mempool: MempoolInfo, totals: NetTotals, latestBlock: Option<Block>,
    hashps120: real, hashpsNeg1: real, hashps1: real, banned: seq<Ban>)

  /** How the calls of lines 210-222 ended, with every failure handed to
      `on_retry` on the way, in order. */
  datatype Fetch =
    | FetchOk(retried: seq<Exn>, fetched: Fetched)
    | FetchFailed(retried: seq<Exn>, error: Exn)

  /** Every call whose failure ends the pass answered (`getblock` is not one of them). */
  predicate FetchSucceeds(d: Daemon) {
    && Retry(d.uptime).outcome.Returned?
    && Retry(d.memoryInfo).outcome.Returned?
    && Retry(d.blockchainInfo).outcome.Returned?
    && Retry(d.networkInfo).outcome.Returned?
    && Retry(d.chainTips).outcome.Returned?
    && Retry(d.mempoolInfo).outcome.Returned?
    && Retry(d.netTotals).outcome.Returned?
    && Retry(d.hashps120).outcome.Returned?
    && Retry(d.hashpsNeg1).outcome.Returned?
    && Retry(d.hashps1).outcome.Returned?
    && Retry(d.banned).outcome.Returned?
  }

  /** The replies the daemon gives, read straight off each call's outcome. */
  function Answers(d: Daemon): Fetched
    requires FetchSucceeds(d)
  {
    Fetched(Retry(d.uptime).outcome.value, Retry(d.memoryInfo).outcome.value,
            Retry(d.blockchainInfo).outcome.value, Retry(d.networkInfo).outcome.value,
            |Retry(d.chainTips).outcome.value|, Retry(d.mempoolInfo).outcome.value,
            Retry(d.netTotals).outcome.value, GetBlock(d.block),
            Retry(d.hashps120).outcome.value, Retry(d.hashpsNeg1).outcome.value,
            Retry(d.hashps1).outcome.value, Retry(d.banned).outcome.value)
  }

  /** Lines 210-222: the calls in order, stopping at the first that raises. */
  function FetchAll(d: Daemon): (r: Fetch)
    ensures r.FetchOk? <==> FetchSucceeds(d)
    ensures r.FetchOk? ==> r.fetched == Answers(d)
    ensures r.FetchOk? ==> r.fetched.latestBlock == GetBlock(d.block)
  {
    var c1 := Retry(d.uptime);
    if c1.outcome.Raised? then FetchFailed(c1.retried, c1.outcome.error) else
    var c2 := Retry(d.memoryInfo);
    var e2 := c1.retried + c2.retried;
    if c2.outcome.Raised? then FetchFailed(e2, c2.outcome.error) else
    var c3 := Retry(d.blockchainInfo);
    var e3 := e2 + c3.retried;
    if c3.outcome.Raised? then FetchFailed(e3, c3.outcome.error) else
    var c4 := Retry(d.networkInfo);
    var e4 := e3 + c4.retried;
    if c4.outcome.Raised? then FetchFailed(e4, c4.outcome.error) else
    var c5 := Retry(d.chainTips);
    var e5 := e4 + c5.retried;
    if c5.outcome.Raised? then FetchFailed(e5, c5.outcome.error) else
    var c6 := Retry(d.mempoolInfo);
    var e6 := e5 + c6.retried;
    if c6.outcome.Raised? then FetchFailed(e6, c6.outcome.error) else
    var c7 := Retry(d.netTotals);
    var e7 := e6 + c7.retried;
    if c7.outcome.Raised? then FetchFailed(e7, c7.outcome.error) else
    var blk := Retry(d.block);
    var eb := e7 + blk.retried;
    var c8 := Retry(d.hashps120);
    var e8 := eb + c8.retried;
    if c8.outcome.Raised? then FetchFailed(e8, c8.outcome.error) else
    var c9 := Retry(d.hashpsNeg1);
    var e9 := e8 + c9.retried;
    if c9.outcome.Raised? then FetchFailed(e9, c9.outcome.error) else
    var c10 := Retry(d.hashps1);
    var e10 := e9 + c10.retried;
    if c10.outcome.Raised? then FetchFailed(e10, c10.outcome.error) else
    var c11 := Retry(d.banned);
    var e11 := e10 + c11.retried;
    if c11.outcome.Raised? then FetchFailed(e11, c11.outcome.error) else
    FetchOk(e11,
            Fetched(c1.outcome.value, c2.outcome.value, c3.outcome.value, c4.outcome.value,
                    |c5.outcome.value|, c6.outcome.value, c7.outcome.value, GetBlock(d.block),
                    c8.outcome.value, c9.outcome.value, c10.outcome.value, c11.outcome.value))
  }

  // ---------------------------------------------------------------------------
  // Writes

  /** The gauges of lines 224-234. */
  const ScalarKeys: set<Series> := {
    Plain(Uptime), Plain(Blocks), Plain(Peers), Plain(Difficulty), Plain(Hashps),
    Plain(HashpsNeg1), Plain(Hashps1), Plain(ServerVersion), Plain(ProtocolVersion),
    Plain(SizeOnDisk), Plain(VerificationProgress)}

  /** The gauges of lines 250-264. */
  const TailKeys: set<Series> := {
    Plain(NumChaintips), Plain(MeminfoUsed), Plain(MeminfoFree), Plain(MeminfoTotal),
    Plain(MeminfoLocked), Plain(MeminfoChunksUsed), Plain(MeminfoChunksFree),
    Plain(MempoolBytes), Plain(MempoolSize), Plain(MempoolUsage),
    Plain(TotalBytesRecv), Plain(TotalBytesSent)}

  /** The gauges of lines 267-282. */
  const BlockKeys: set<Series> := {
    Plain(LatestBlockSize), Plain(LatestBlockTxs), Plain(LatestBlockHeight),
    Plain(LatestBlockWeight), Plain(LatestBlockInputs), Plain(LatestBlockOutputs),
    Plain(LatestBlockValue)}

  /** Which of the fixed-gauge stages writes a metric. */
  datatype Stage = ScalarStage | TailStage | BlockStage | NoStage

  function StageOf(m: Metric): Stage {
    match m
    case Uptime | Blocks | Peers | Difficulty | Hashps | HashpsNeg1 | Hashps1
       | ServerVersion | ProtocolVersion | SizeOnDisk | VerificationProgress => ScalarStage
    case NumChaintips | MeminfoUsed | MeminfoFree | MeminfoTotal | MeminfoLocked
       | MeminfoChunksUsed | MeminfoChunksFree | MempoolBytes | MempoolSize | MempoolUsage
       | TotalBytesRecv | TotalBytesSent => TailStage
    case LatestBlockSize | LatestBlockTxs | LatestBlockHeight | LatestBlockWeight
       | LatestBlockInputs | LatestBlockOutputs | LatestBlockValue => BlockStage
    case _ => NoStage
  }

  /** Each key set holds the gauges of one stage. */
  lemma ScalarKeyStage(k: Series)
    ensures k in ScalarKeys ==> StageOf(k.metric) == ScalarStage
  {
  }

  lemma TailKeyStage(k: Series)
    ensures k in TailKeys ==> StageOf(k.metric) == TailStage
  {
  }

  lemma BlockKeyStage(k: Series)
    ensures k in BlockKeys ==> StageOf(k.metric) == BlockStage
  {
  }

  predicate Holds(s: Store, m: Metric, v: real) {
    Plain(m) in s && s[Plain(m)] == v
  }

  /** Each scalar gauge holds its reply field. */
  predicate ScalarsCopied(s: Store, f: Fetched) {
    && Holds(s, Uptime, f.uptime as real)
    && Holds(s, Blocks, f.chain.blocks as real)
    && Holds(s, Peers, f.network.connections as real)
    && Holds(s, Difficulty, f.chain.difficulty)
    && Holds(s, Hashps, f.hashps120)
    && Holds(s, HashpsNeg1, f.hashpsNeg1)
    && Holds(s, Hashps1, f.hashps1)
    && Holds(s, ServerVersion, f.network.version as real)
    && Holds(s, ProtocolVersion, f.network.protocolVersion as real)
    && Holds(s, SizeOnDisk, f.chain.sizeOnDisk as real)
    && Holds(s, VerificationProgress, f.chain.verificationProgress)
  }

  /** Each remaining gauge holds its reply field, the chain-tip gauge the list length. */
  predicate TailCopied(s: Store, f: Fetched) {
    && Holds(s, NumChaintips, f.chainTips as real)
    && Holds(s, MeminfoUsed, f.meminfo.used as real)
    && Holds(s, MeminfoFree, f.meminfo.free as real)
    && Holds(s, MeminfoTotal, f.meminfo.total as real)
    && Holds(s, MeminfoLocked, f.meminfo.locked as real)
    && Holds(s, MeminfoChunksUsed, f.meminfo.chunksUsed as real)
    && Holds(s, MeminfoChunksFree, f.meminfo.chunksFree as real)
    && Holds(s, MempoolBytes, f.mempool.bytes as real)
    && Holds(s, MempoolSize, f.mempool.size as real)
    && Holds(s, MempoolUsage, f.mempool.usage as real)
    && Holds(s, TotalBytesRecv, f.totals.totalBytesRecv as real)
    && Holds(s, TotalBytesSent, f.totals.totalBytesSent as real)
  }

  /** The latest-block gauges describe `b`: four fields copied, three totals over its transactions. */
  predicate BlockCopied(s: Store, b: Block) {
    && Holds(s, LatestBlockSize, b.size as real)
    && Holds(s, LatestBlockTxs, b.nTx as real)
    && Holds(s, LatestBlockHeight, b.height as real)
    && Holds(s, LatestBlockWeight, b.weight as real)
    && Holds(s, LatestBlockInputs, SumInputs(b.tx) as real)
    && Holds(s, LatestBlockOutputs, SumOutputs(b.tx) as real)
    && Holds(s, LatestBlockValue, SumValue(b.tx))
  }

  function ApplyScalars(s: Store, f: Fetched): (s': Store)
    ensures ScalarsCopied(s', f)
    ensures forall k: Series :: k !in ScalarKeys ==> Unchanged(s, s', k)
  {
    s[Plain(Uptime) := f.uptime as real]
     [Plain(Blocks) := f.chain.blocks as real]
     [Plain(Peers) := f.network.connections as real]
     [Plain(Difficulty) := f.chain.difficulty]
     [Plain(Hashps) := f.hashps120]
     [Plain(HashpsNeg1) := f.hashpsNeg1]
     [Plain(Hashps1) := f.hashps1]
     [Plain(ServerVersion) := f.network.version as real]
     [Plain(ProtocolVersion) := f.network.protocolVersion as real]
     [Plain(SizeOnDisk) := f.chain.sizeOnDisk as real]
     [Plain(VerificationProgress) := f.chain.verificationProgress]
  }

  /** Copying the scalar gauges keeps every series and every counter. */
  lemma ScalarsGrow(s: Store, s': Store, f: Fetched)
    requires ScalarsCopied(s', f)
    requires forall k: Series :: k !in ScalarKeys ==> Unchanged(s, s', k)
    ensures Grows(s, s')
  {
    forall k | k in s ensures k in s' && (k.metric.IsCounter() ==> s[k] <= s'[k]) {
      ScalarKeyStage(k);
      if k !in ScalarKeys {
        assert Unchanged(s, s', k);
      }
    }
  }

  /** Lines 247-248: the warnings counter goes up by one when the daemon
      reports a warning; the current number of warnings is not recorded. */
  function CountWarnings(s: Store, warnings: string): (s': Store)
    ensures ValueOr0(s', Plain(Warnings))
            == ValueOr0(s, Plain(Warnings)) + (if |warnings| > 0 then 1.0 else 0.0)
    ensures |warnings| == 0 ==> s' == s
    ensures Grows(s, s')
    ensures forall k :: k != Plain(Warnings) ==> Unchanged(s, s', k)
  {
    if |warnings| > 0 then IncCounter(s, Plain(Warnings)) else s
  }

  /** Lines 250-264. */
  function ApplyTail(s: Store, f: Fetched): (s': Store)
    ensures TailCopied(s', f)
    ensures forall k: Series :: k !in TailKeys ==> Unchanged(s, s', k)
  {
    s[Plain(NumChaintips) := f.chainTips as real]
     [Plain(MeminfoUsed) := f.meminfo.used as real]
     [Plain(MeminfoFree) := f.meminfo.free as real]
     [Plain(MeminfoTotal) := f.meminfo.total as real]
     [Plain(MeminfoLocked) := f.meminfo.locked as real]
     [Plain(MeminfoChunksUsed) := f.meminfo.chunksUsed as real]
     [Plain(MeminfoChunksFree) := f.meminfo.chunksFree as real]
     [Plain(MempoolBytes) := f.mempool.bytes as real]
     [Plain(MempoolSize) := f.mempool.size as real]
     [Plain(MempoolUsage) := f.mempool.usage as real]
     [Plain(TotalBytesRecv) := f.totals.totalBytesRecv as real]
     [Plain(TotalBytesSent) := f.totals.totalBytesSent as real]
  }

  /** Copying the remaining gauges keeps every series and every counter. */
  lemma TailGrows(s: Store, s': Store, f: Fetched)
    requires TailCopied(s', f)
    requires forall k: Series :: k !in TailKeys ==> Unchanged(s, s', k)
    ensures Grows(s, s')
  {
    forall k | k in s ensures k in s' && (k.metric.IsCounter() ==> s[k] <= s'[k]) {
      TailKeyStage(k);
      if k !in TailKeys {
        assert Unchanged(s, s', k);
      }
    }
  }

  /** Lines 266-282: with no block, every latest-block gauge keeps its value. */
  function LatestBlock(s: Store, block: Option<Block>): (s': Store)
    ensures block.None? ==> s' == s
    ensures block.Some? ==> BlockCopied(s', block.value)
    ensures Grows(s, s')
    ensures forall k: Series :: k !in BlockKeys ==> Unchanged(s, s', k)
  {
    match block
    case None => s
    case Some(b) =>
      s[Plain(LatestBlockSize) := b.size as real]
       [Plain(LatestBlockTxs) := b.nTx as real]
       [Plain(LatestBlockHeight) := b.height as real]
       [Plain(LatestBlockWeight) := b.weight as real]
       [Plain(LatestBlockInputs) := SumInputs(b.tx) as real]
       [Plain(LatestBlockOutputs) := SumOutputs(b.tx) as real]
       [Plain(LatestBlockValue) := SumValue(b.tx)]
  }

  // ---------------------------------------------------------------------------
  // Fee estimates

  /** A registry with the store replaced by one that agrees on every fee-estimate series. */
  function WithValues(r: ValidRegistry, s: Store): (r': ValidRegistry)
    requires forall k: Series :: k.metric.EstSmartFee? ==> Unchanged(r.values, s, k)
    ensures r'.values == s && r'.feeGauges == r.feeGauges
  {
    var r' := Registry(s, r.feeGauges);
    assert CacheConsistent(r') by {
      forall n | n in r'.feeGauges
        ensures Plain(EstSmartFee(n)) in s
      {
        assert Unchanged(r.values, s, Plain(EstSmartFee(n)));
      }
    }
    assert FeeSeriesCached(r') by {
      forall k | k in s && k.metric.EstSmartFee?
        ensures k.metric.target in r'.feeGauges
      {
        assert Unchanged(r.values, s, k);
      }
    }
    r'
  }

  datatype Partial = Partial(registry: ValidRegistry, failure: Option<Exn>)

  /** The fee gauge for `n` went from `before` to `after` as `feerate` says:
      it holds the estimate, or is untouched when there is none. */
  predicate FeeWritten(before: Store, after: Store, n: int, feerate: Option<real>) {
    match feerate
    case Some(v) => Holds(after, EstSmartFee(n), v)
    case None => Unchanged(before, after, Plain(EstSmartFee(n)))
  }

  /** The `i`-th fee call of the loop over `targets`. */
  function FeeCall(targets: seq<int>, i: nat, d: Daemon): Resolution<FeeReply>
    requires i < |targets|
  {
    Retry(d.smartFee(i, targets[i]))
  }

  /** A call through `bitcoinrpc` (lines 166-171) with the failures it
      retried counted, and nothing else written. */
  function Counted<T>(r: ValidRegistry, script: seq<CallOutcome<T>>): (r1: ValidRegistry)
    ensures RegistryGrows(r, r1) && r1.feeGauges == r.feeGauges
    ensures ErrorsRose(r.values, r1.values, Retry(script).retried)
    ensures forall k: Series :: k.metric != ExporterErrors ==> Unchanged(r.values, r1.values, k)
  {
    WithValues(r, Rpc(r.values, script).values)
  }

  /** `do_smartfee(targets[i])` with its call: the failures retried on the way
      are counted, then the estimate is written when the daemon gave one. */
  function FeeStep(r: ValidRegistry, targets: seq<int>, i: nat, d: Daemon): (p: Partial)
    requires i < |targets|
    ensures RegistryGrows(r, p.registry)
    ensures forall k: Series :: k.metric != EstSmartFee(targets[i]) && k.metric != ExporterErrors ==>
              Unchanged(r.values, p.registry.values, k)
    ensures ErrorsRose(r.values, p.registry.values, FeeCall(targets, i, d).retried)
    ensures p.failure.None? <==> FeeCall(targets, i, d).outcome.Returned?
    ensures p.failure.Some? ==> p.failure.value == FeeCall(targets, i, d).outcome.error
    ensures p.failure.Some? ==>
              && p.registry.feeGauges == r.feeGauges
              && forall k: Series :: k.metric != ExporterErrors ==> Unchanged(r.values, p.registry.values, k)
    ensures p.failure.None? ==>
              FeeWritten(r.values, p.registry.values, targets[i], FeeCall(targets, i, d).outcome.value.feerate)
  {
    var r1 := Counted(r, d.smartFee(i, targets[i]));
    match FeeCall(targets, i, d).outcome
    case Raised(e) => Partial(r1, Some(e))
    case Returned(reply) =>
      var r2 := DoSmartfee(r1, targets[i], reply.feerate);
      FeeWriteAfterCount(r, r1, r2, targets[i], reply.feerate, FeeCall(targets, i, d).retried);
      Partial(r2, None)
  }

  /** Counting a call's failures and then writing the gauge of `n` changes
      nothing else, keeps the counts and leaves the written estimate. */
  lemma FeeWriteAfterCount(r: ValidRegistry, r1: ValidRegistry, r2: ValidRegistry, n: int,
                           feerate: Option<real>, errs: seq<Exn>)
    requires RegistryGrows(r, r1) && RegistryGrows(r1, r2)
    requires ErrorsRose(r.values, r1.values, errs)
    requires forall k: Series :: k.metric != ExporterErrors ==> Unchanged(r.values, r1.values, k)
    requires forall k: Series :: k.metric != EstSmartFee(n) ==> Unchanged(r1.values, r2.values, k)
    requires FeeWritten(r1.values, r2.values, n, feerate)
    ensures RegistryGrows(r, r2)
    ensures ErrorsRose(r.values, r2.values, errs)
    ensures forall k: Series :: k.metric != EstSmartFee(n) && k.metric != ExporterErrors ==>
              Unchanged(r.values, r2.values, k)
    ensures FeeWritten(r.values, r2.values, n, feerate)
  {
    ErrorsRoseKept(r.values, r1.values, r2.values, errs);
    RegistryGrowsTransitive(r, r1, r2);
    assert Unchanged(r.values, r1.values, Plain(EstSmartFee(n)));
  }

  /** Every fee call of the loop from position `i` on answered. */
  predicate FeesAnswered(targets: seq<int>, i: nat, d: Daemon) {
    forall j :: i <= j < |targets| ==> FeeCall(targets, j, d).outcome.Returned?
  }

  /** What the fee loop from position `i` raises: the error of the first
      call that raised, or nothing when every call answered. */
  function FeeFailure(targets: seq<int>, i: nat, d: Daemon): (e: Option<Exn>)
    requires i <= |targets|
    ensures e.None? <==> FeesAnswered(targets, i, d)
    decreases |targets| - i
  {
    if i == |targets| then None
    else
      FeeLoopUnfolds(targets, i, d);
      match FeeCall(targets, i, d).outcome
      case Raised(err) => Some(err)
      case Returned(_) => FeeFailure(targets, i + 1, d)
  }

  /** The error the fee loop raises is that of the first call that raised:
      every call before `j` answered and call `j` raised it. */
  lemma {:induction false} FeeFailureIsFirst(targets: seq<int>, i: nat, d: Daemon, j: nat)
    requires i <= j < |targets|
    requires forall m :: i <= m < j ==> FeeCall(targets, m, d).outcome.Returned?
    requires FeeCall(targets, j, d).outcome.Raised?
    ensures FeeFailure(targets, i, d) == Some(FeeCall(targets, j, d).outcome.error)
    decreases j - i
  {
    if i < j {
      FeeFailureIsFirst(targets, i + 1, d, j);
    }
  }

  /** The failures the fee loop from position `i` hands to `on_retry`: those
      of each call, up to and including the first call that raises. */
  function FeeRetried(targets: seq<int>, i: nat, d: Daemon): seq<Exn>
    requires i <= |targets|
    decreases |targets| - i
  {
    if i == |targets| then []
    else
      var c := FeeCall(targets, i, d);
      c.retried + (if c.outcome.Returned? then FeeRetried(targets, i + 1, d) else [])
  }

  /** The estimate that the loop from position `i` leaves in the gauge of `n`:
      that of the last call for `n` before the first call that raised which
      answered with a `feerate`, or none. */
  function LastFee(targets: seq<int>, i: nat, d: Daemon, n: int): Option<real>
    requires i <= |targets|
    decreases |targets| - i
  {
    if i == |targets| || FeeCall(targets, i, d).outcome.Raised? then None
    else match LastFee(targets, i + 1, d, n)
      case Some(v) => Some(v)
      case None => if targets[i] == n then FeeCall(targets, i, d).outcome.value.feerate else None
  }

  /** Every fee gauge went from `before` to `after` as the loop from position `i` decides. */
  ghost predicate FeesWritten(before: Store, after: Store, targets: seq<int>, i: nat, d: Daemon)
    requires i <= |targets|
  {
    forall n :: FeeWritten(before, after, n, LastFee(targets, i, d, n))
  }

  /** The series the fee loop over `targets` may write. */
  predicate FeeTouched(targets: seq<int>, k: Series) {
    k.metric.ExporterErrors? || (k.metric.EstSmartFee? && k.metric.target in targets)
  }

  /** Lines 236-237 from position `i` on: `do_smartfee` for each target in
      order, stopping at the first call that raises and raising its error.
      Only error counters and the gauges of configured targets are written;
      every failure reported on the way is counted; the gauge of every target
      holds the estimate of the last call for it before the raise that had
      one, or is untouched when none had. */
  function FeeLoop(r: ValidRegistry, targets: seq<int>, i: nat, d: Daemon): (p: Partial)
    requires i <= |targets|
    ensures RegistryGrows(r, p.registry)
    ensures p.failure == FeeFailure(targets, i, d)
    ensures p.failure.None? <==> FeesAnswered(targets, i, d)
    ensures forall k: Series :: !FeeTouched(targets, k) ==> Unchanged(r.values, p.registry.values, k)
    ensures ErrorsRose(r.values, p.registry.values, FeeRetried(targets, i, d))
    ensures FeesWritten(r.values, p.registry.values, targets, i, d)
    decreases |targets| - i
  {
    if i == |targets| then Partial(r, None)
    else
      var step := FeeStep(r, targets, i, d);
      FeeStepFrame(r.values, step.registry.values, targets, i);
      FeeLoopUnfolds(targets, i, d);
      if step.failure.Some? then
        FeeLoopStops(r.values, step.registry.values, targets, i, d);
        step
      else
        var rest := FeeLoop(step.registry, targets, i + 1, d);
        RegistryGrowsTransitive(r, step.registry, rest.registry);
        FeeFrameChain(r.values, step.registry.values, rest.registry.values, targets);
        ErrorsRoseChain(r.values, step.registry.values, rest.registry.values,
                        FeeCall(targets, i, d).retried, FeeRetried(targets, i + 1, d));
        FeeWritesCons(r.values, step.registry.values, rest.registry.values, targets, i, d);
        rest
  }

  /** A call that raises ends the loop with no fee gauge written. */
  lemma FeeLoopStops(a: Store, b: Store, targets: seq<int>, i: nat, d: Daemon)
    requires i < |targets| && FeeCall(targets, i, d).outcome.Raised?
    requires forall k: Series :: k.metric != ExporterErrors ==> Unchanged(a, b, k)
    ensures FeesWritten(a, b, targets, i, d)
  {
    forall n ensures FeeWritten(a, b, n, LastFee(targets, i, d, n)) {
      assert Unchanged(a, b, Plain(EstSmartFee(n)));
    }
  }

  /** The loop from position `i` is its call at `i` followed, when that call
      answers, by the loop from `i + 1`. */
  lemma FeeLoopUnfolds(targets: seq<int>, i: nat, d: Daemon)
    requires i < |targets|
    ensures FeesAnswered(targets, i, d) <==>
              FeeCall(targets, i, d).outcome.Returned? && FeesAnswered(targets, i + 1, d)
    ensures FeeRetried(targets, i, d)
            == if FeeCall(targets, i, d).outcome.Returned?
               then FeeCall(targets, i, d).retried + FeeRetried(targets, i + 1, d)
               else FeeCall(targets, i, d).retried
  {
    assert FeeCall(targets, i, d).retried + [] == FeeCall(targets, i, d).retried;
  }

  /** Frames of consecutive stretches of the loop compose. */
  lemma FeeFrameChain(a: Store, b: Store, c: Store, targets: seq<int>)
    requires forall k: Series :: !FeeTouched(targets, k) ==> Unchanged(a, b, k)
    requires forall k: Series :: !FeeTouched(targets, k) ==> Unchanged(b, c, k)
    ensures forall k: Series :: !FeeTouched(targets, k) ==> Unchanged(a, c, k)
  {
  }

  /** One step writes nothing the loop over `targets` may not. */
  lemma FeeStepFrame(a: Store, b: Store, targets: seq<int>, i: nat)
    requires i < |targets|
    requires forall k: Series :: k.metric != EstSmartFee(targets[i]) && k.metric != ExporterErrors ==>
               Unchanged(a, b, k)
    ensures forall k: Series :: !FeeTouched(targets, k) ==> Unchanged(a, b, k)
  {
  }

  /** A step's write and the writes of the rest of the loop together are the
      writes of the loop from that step: a later estimate for the same target
      wins, and otherwise the step's own survives. */
  lemma FeeWritesCons(a: Store, b: Store, c: Store, targets: seq<int>, i: nat, d: Daemon)
    requires i < |targets| && FeeCall(targets, i, d).outcome.Returned?
    requires FeeWritten(a, b, targets[i], FeeCall(targets, i, d).outcome.value.feerate)
    requires forall k: Series :: k.metric != EstSmartFee(targets[i]) && k.metric != ExporterErrors ==>
               Unchanged(a, b, k)
    requires FeesWritten(b, c, targets, i + 1, d)
    ensures FeesWritten(a, c, targets, i, d)
  {
    forall n ensures FeeWritten(a, c, n, LastFee(targets, i, d, n)) {
      assert FeeWritten(b, c, n, LastFee(targets, i + 1, d, n));
      if LastFee(targets, i + 1, d, n).None? {
        if n != targets[i] {
          assert Unchanged(a, b, Plain(EstSmartFee(n)));
        }
        FeeWrittenChain(a, b, c, n, LastFee(targets, i, d, n));
      }
    }
  }

  /** Two consecutive stretches of the loop compose: each either wrote the
      gauge or left it alone, and at least one wrote it. */
  lemma FeeWrittenChain(a: Store, b: Store, c: Store, n: int, feerate: Option<real>)
    requires FeeWritten(a, b, n, feerate) || Unchanged(a, b, Plain(EstSmartFee(n)))
    requires FeeWritten(b, c, n, feerate) || Unchanged(b, c, Plain(EstSmartFee(n)))
    ensures FeeWritten(a, c, n, feerate) || Unchanged(a, c, Plain(EstSmartFee(n)))
    ensures FeeWritten(a, b, n, feerate) || FeeWritten(b, c, n, feerate) ==> FeeWritten(a, c, n, feerate)
  {
  }

  // ---------------------------------------------------------------------------
  // Bans

  function BanLabels(address: string, reason: string): seq<(string, string)> {
    [("address", address), ("reason", reason)]
  }

  /** No later entry of `bans` has the same address and reason as entry `i`. */
  predicate LastOfPair(bans: seq<Ban>, i: int)
    requires 0 <= i < |bans|
  {
    forall j :: i < j < |bans| ==>
      bans[j].address != bans[i].address || bans[j].banReason != bans[i].banReason
  }

  /** Both ban gauges of an entry that has a reason hold its times. */
  predicate BanWritten(s: Store, b: Ban)
    requires b.banReason.Some?
  {
    var labels := BanLabels(b.address, b.banReason.value);
    && Series(BanCreated, labels) in s && s[Series(BanCreated, labels)] == b.banCreated as real
    && Series(BannedUntil, labels) in s && s[Series(BannedUntil, labels)] == b.bannedUntil as real
  }

  /** The label pairs the entries of `bans` that have a reason write under. */
  function LabelsOf(bans: seq<Ban>): set<seq<(string, string)>> {
    set i | 0 <= i < |bans| && bans[i].banReason.Some? :: BanLabels(bans[i].address, bans[i].banReason.value)
  }

  datatype BanPass = BanPass(values: Store, failure: Option<Exn>)

  /** The series the entries of `bans` write. */
  predicate BanTouched(bans: seq<Ban>, k: Series) {
    (k.metric.BanCreated? || k.metric.BannedUntil?) && k.labels in LabelsOf(bans)
  }

  /** Lines 240-245 for one entry: `ban["ban_reason"]` raises `KeyError` before
      either gauge is written when the entry has no reason. */
  function BanStep(s: Store, ban: Ban): (b: BanPass)
    ensures ban.banReason.None? ==> b == BanPass(s, Some(KeyError))
    ensures ban.banReason.Some? ==> b.failure.None? && BanWritten(b.values, ban)
    ensures Grows(s, b.values)
    ensures forall k: Series :: !BanTouched([ban], k) ==> Unchanged(s, b.values, k)
  {
    match ban.banReason
    case None => BanPass(s, Some(KeyError))
    case Some(reason) =>
      var labels := BanLabels(ban.address, reason);
      assert [ban][0] == ban;
      assert LabelsOf([ban]) == {labels};
      var s1 := SetGauge(s, Series(BanCreated, labels), ban.banCreated as real);
      BanPass(SetGauge(s1, Series(BannedUntil, labels), ban.bannedUntil as real), None)
  }

  /** Every entry of the ban list carries a reason. */
  predicate BansComplete(bans: seq<Ban>) {
    forall i :: 0 <= i < |bans| ==> bans[i].banReason.Some?
  }

  /** Every entry that is the last with its address and reason has both gauges written. */
  predicate BansWritten(s: Store, bans: seq<Ban>) {
    forall i :: 0 <= i < |bans| && LastOfPair(bans, i) ==>
      bans[i].banReason.Some? && BanWritten(s, bans[i])
  }

  lemma BansCompleteCons(bans: seq<Ban>)
    requires |bans| > 0
    ensures BansComplete(bans) <==> bans[0].banReason.Some? && BansComplete(bans[1..])
  {
    if bans[0].banReason.Some? && BansComplete(bans[1..]) {
      forall i | 0 < i < |bans| ensures bans[i].banReason.Some? {
        assert bans[i] == bans[1..][i - 1];
      }
    }
  }

  /** Lines 239-245: the entries in order, stopping at the first without a
      reason. Only the two ban gauges are written, under the labels of the
      entries; when every entry has a reason, the last entry with each
      address and reason has both gauges holding its times. */
  function BanLoop(s: Store, bans: seq<Ban>): (b: BanPass)
    ensures Grows(s, b.values)
    ensures b.failure.None? <==> BansComplete(bans)
    ensures b.failure.Some? ==> b.failure.value == KeyError
    ensures forall k: Series :: !BanTouched(bans, k) ==> Unchanged(s, b.values, k)
    ensures b.failure.None? ==> BansWritten(b.values, bans)
    decreases |bans|
  {
    if |bans| == 0 then BanPass(s, None)
    else
      var step := BanStep(s, bans[0]);
      BansCompleteCons(bans);
      if step.failure.Some? then step
      else
        var rest := BanLoop(step.values, bans[1..]);
        GrowsTransitive(s, step.values, rest.values);
        BanFrameCons(s, step.values, rest.values, bans);
        if rest.failure.Some? then rest
        else
          BanWritesCons(s, step.values, rest.values, bans);
          rest
  }

  lemma LabelsOfCons(bans: seq<Ban>)
    requires |bans| > 0
    ensures LabelsOf(bans) == LabelsOf([bans[0]]) + LabelsOf(bans[1..])
  {
    forall x | x in LabelsOf(bans[1..]) ensures x in LabelsOf(bans) {
      var j :| 0 <= j < |bans[1..]| && bans[1..][j].banReason.Some?
               && x == BanLabels(bans[1..][j].address, bans[1..][j].banReason.value);
      assert bans[j + 1] == bans[1..][j];
    }
    forall x | x in LabelsOf(bans) ensures x in LabelsOf([bans[0]]) + LabelsOf(bans[1..]) {
      var j :| 0 <= j < |bans| && bans[j].banReason.Some?
               && x == BanLabels(bans[j].address, bans[j].banReason.value);
      if j > 0 {
        assert bans[1..][j - 1] == bans[j];
      } else {
        assert [bans[0]][0] == bans[j];
      }
    }
  }

  /** The first entry and the rest of the list together write only under the labels of the list. */
  lemma BanFrameCons(a: Store, b: Store, c: Store, bans: seq<Ban>)
    requires |bans| > 0
    requires forall k: Series :: !BanTouched([bans[0]], k) ==> Unchanged(a, b, k)
    requires forall k: Series :: !BanTouched(bans[1..], k) ==> Unchanged(b, c, k)
    ensures forall k: Series :: !BanTouched(bans, k) ==> Unchanged(a, c, k)
  {
    LabelsOfCons(bans);
    forall k: Series | !BanTouched(bans, k) ensures Unchanged(a, c, k) {
      assert !BanTouched(bans[1..], k);
      assert !BanTouched([bans[0]], k);
    }
  }

  /** The first entry's writes and the rest of the list's writes together are
      the writes of the whole list: the first entry's gauges survive unless a
      later entry has the same address and reason. */
  lemma BanWritesCons(a: Store, b: Store, c: Store, bans: seq<Ban>)
    requires |bans| > 0 && BansComplete(bans)
    requires BanWritten(b, bans[0])
    requires forall k: Series :: !BanTouched(bans[1..], k) ==> Unchanged(b, c, k)
    requires BansWritten(c, bans[1..])
    ensures BansWritten(c, bans)
  {
    forall i | 0 <= i < |bans| && LastOfPair(bans, i)
      ensures bans[i].banReason.Some? && BanWritten(c, bans[i])
    {
      if i == 0 {
        var labels := BanLabels(bans[0].address, bans[0].banReason.value);
        forall x: seq<(string, string)> | x in LabelsOf(bans[1..]) ensures x != labels {
          var j :| 0 <= j < |bans[1..]| && bans[1..][j].banReason.Some?
                   && x == BanLabels(bans[1..][j].address, bans[1..][j].banReason.value);
          assert bans[j + 1] == bans[1..][j];
          assert x[0].1 != labels[0].1 || x[1].1 != labels[1].1;
        }
        assert Unchanged(b, c, Series(BanCreated, labels));
        assert Unchanged(b, c, Series(BannedUntil, labels));
      } else {
        assert bans[i] == bans[1..][i - 1];
        assert LastOfPair(bans[1..], i - 1);
      }
    }
  }

  /** The pass stops at the first entry without a reason: what was written is
      exactly what the entries before it write. */
  lemma {:induction false} BanLoopStopsAtMissingReason(s: Store, bans: seq<Ban>, j: nat)
    requires j < |bans| && bans[j].banReason.None?
    requires forall i :: 0 <= i < j ==> bans[i].banReason.Some?
    ensures BanLoop(s, bans) == BanPass(BanLoop(s, bans[..j]).values, Some(KeyError))
    decreases j
  {
    if j > 0 {
      var ban := bans[0];
      var labels := BanLabels(ban.address, ban.banReason.value);
      var s1 := SetGauge(SetGauge(s, Series(BanCreated, labels), ban.banCreated as real),
                         Series(BannedUntil, labels), ban.bannedUntil as real);
      BanLoopStopsAtMissingReason(s1, bans[1..], j - 1);
      assert bans[..j][1..] == bans[1..][..j - 1];
    }
  }

  // ---------------------------------------------------------------------------
  // The pass

  /** No fee-estimate series is among the fixed gauges the pass writes. */
  lemma FeesOutsideFixedKeys(k: Series)
    requires k.metric.EstSmartFee?
    ensures k !in ScalarKeys && k !in TailKeys && k !in BlockKeys && k != Plain(Warnings)
  {
  }

  /** The fixed gauges of the three writing stages are three separate families. */
  lemma FixedKeysDisjoint()
    ensures ScalarKeys !! TailKeys && ScalarKeys !! BlockKeys && TailKeys !! BlockKeys
    ensures Plain(Warnings) !in ScalarKeys + TailKeys + BlockKeys
  {
    forall k: Series ensures !(k in ScalarKeys && k in TailKeys) && !(k in ScalarKeys && k in BlockKeys)
                             && !(k in TailKeys && k in BlockKeys) {
      ScalarKeyStage(k);
      TailKeyStage(k);
      BlockKeyStage(k);
    }
    ScalarKeyStage(Plain(Warnings));
    TailKeyStage(Plain(Warnings));
    BlockKeyStage(Plain(Warnings));
  }

  /** The scalar gauges are written by no stage after the fee loop. */
  lemma ScalarsNotLate(bans: seq<Ban>, k: Series)
    requires k in ScalarKeys
    ensures !LateTouched(bans, k)
  {
    FixedKeysDisjoint();
  }

  /** What each of the last three stages guarantees is enough for the stages together. */
  lemma FinishStages(s: Store, s1: Store, s2: Store, s3: Store, f: Fetched)
    requires forall k: Series :: k != Plain(Warnings) ==> Unchanged(s, s1, k)
    requires TailCopied(s2, f)
    requires forall k: Series :: k !in TailKeys ==> Unchanged(s1, s2, k)
    requires forall k: Series :: k !in BlockKeys ==> Unchanged(s2, s3, k)
    requires f.latestBlock.None? ==> s3 == s2
    ensures TailCopied(s3, f)
    ensures ValueOr0(s3, Plain(Warnings)) == ValueOr0(s1, Plain(Warnings))
    ensures f.latestBlock.None? ==> forall k: Series :: k in BlockKeys ==> Unchanged(s, s3, k)
    ensures forall k: Series :: k !in TailKeys && k !in BlockKeys && k != Plain(Warnings) ==>
              Unchanged(s, s3, k)
  {
    FixedKeysDisjoint();
    forall k: Series | k in TailKeys ensures Unchanged(s2, s3, k) {
      assert k !in BlockKeys;
    }
    assert Unchanged(s1, s2, Plain(Warnings)) && Unchanged(s2, s3, Plain(Warnings));
    forall k: Series | k !in TailKeys && k !in BlockKeys && k != Plain(Warnings)
      ensures Unchanged(s, s3, k)
    {
      assert Unchanged(s, s1, k) && Unchanged(s1, s2, k) && Unchanged(s2, s3, k);
    }
    if f.latestBlock.None? {
      forall k: Series | k in BlockKeys ensures Unchanged(s, s3, k) {
        assert k !in TailKeys && k != Plain(Warnings);
        assert Unchanged(s, s1, k) && Unchanged(s1, s2, k);
      }
    }
  }

  /** Lines 247-282: everything after the ban loop, none of which can raise. */
  function Finish(s: Store, f: Fetched): (s': Store)
    ensures TailCopied(s', f)
    ensures ValueOr0(s', Plain(Warnings))
            == ValueOr0(s, Plain(Warnings)) + (if |f.network.warnings| > 0 then 1.0 else 0.0)
    ensures f.latestBlock.Some? ==> BlockCopied(s', f.latestBlock.value)
    ensures f.latestBlock.None? ==> forall k: Series :: k in BlockKeys ==> Unchanged(s, s', k)
    ensures Grows(s, s')
    ensures forall k: Series :: k !in TailKeys && k !in BlockKeys && k != Plain(Warnings) ==>
              Unchanged(s, s', k)
  {
    var s1 := CountWarnings(s, f.network.warnings);
    var s2 := ApplyTail(s1, f);
    var s3 := LatestBlock(s2, f.latestBlock);
    TailGrows(s1, s2, f);
    GrowsTransitive(s, s1, s2);
    GrowsTransitive(s, s2, s3);
    FinishStages(s, s1, s2, s3, f);
    s3
  }

  /** The series the stages after the fee loop may write. */
  predicate LateTouched(bans: seq<Ban>, k: Series) {
    BanTouched(bans, k) || k in TailKeys || k in BlockKeys || k == Plain(Warnings)
  }

  /** A completed ban loop followed by the last stages: the facts of each
      stage, stated against the store before the ban loop. */
  lemma BansThenFinish(s: Store, sb: Store, s3: Store, f: Fetched)
    requires forall k: Series :: !BanTouched(f.banned, k) ==> Unchanged(s, sb, k)
    requires BansWritten(sb, f.banned)
    requires TailCopied(s3, f)
    requires ValueOr0(s3, Plain(Warnings))
             == ValueOr0(sb, Plain(Warnings)) + (if |f.network.warnings| > 0 then 1.0 else 0.0)
    requires f.latestBlock.None? ==> forall k: Series :: k in BlockKeys ==> Unchanged(sb, s3, k)
    requires forall k: Series :: k !in TailKeys && k !in BlockKeys && k != Plain(Warnings) ==>
               Unchanged(sb, s3, k)
    ensures ValueOr0(s3, Plain(Warnings))
            == ValueOr0(s, Plain(Warnings)) + (if |f.network.warnings| > 0 then 1.0 else 0.0)
    ensures f.latestBlock.None? ==> forall k: Series :: k in BlockKeys ==> Unchanged(s, s3, k)
    ensures BansWritten(s3, f.banned)
    ensures forall k: Series :: !LateTouched(f.banned, k) ==> Unchanged(s, s3, k)
  {
    assert !BanTouched(f.banned, Plain(Warnings));
    forall k: Series | !LateTouched(f.banned, k) ensures Unchanged(s, s3, k) {
      assert Unchanged(s, sb, k) && Unchanged(sb, s3, k);
    }
    if f.latestBlock.None? {
      forall k: Series | k in BlockKeys ensures Unchanged(s, s3, k) {
        assert !BanTouched(f.banned, k);
        assert Unchanged(s, sb, k) && Unchanged(sb, s3, k);
      }
    }
    forall i | 0 <= i < |f.banned| && LastOfPair(f.banned, i)
      ensures f.banned[i].banReason.Some? && BanWritten(s3, f.banned[i])
    {
      var labels := BanLabels(f.banned[i].address, f.banned[i].banReason.value);
      assert Unchanged(sb, s3, Series(BanCreated, labels));
      assert Unchanged(sb, s3, Series(BannedUntil, labels));
    }
  }

  /** Lines 247-282 after a ban loop that raised nothing: `s` is the store
      before the ban loop, `r` the registry after it. */
  method Completed(s: Store, r: ValidRegistry, f: Fetched) returns (r': ValidRegistry)
    requires forall k: Series :: !BanTouched(f.banned, k) ==> Unchanged(s, r.values, k)
    requires BansWritten(r.values, f.banned)
    ensures RegistryGrows(r, r')
    ensures forall k: Series :: !LateTouched(f.banned, k) ==> Unchanged(s, r'.values, k)
    ensures f.latestBlock.None? ==> forall k: Series :: k in BlockKeys ==> Unchanged(s, r'.values, k)
    ensures TailCopied(r'.values, f)
    ensures ValueOr0(r'.values, Plain(Warnings))
            == ValueOr0(s, Plain(Warnings)) + (if |f.network.warnings| > 0 then 1.0 else 0.0)
    ensures f.latestBlock.Some? ==> BlockCopied(r'.values, f.latestBlock.value)
    ensures BansWritten(r'.values, f.banned)
  {
    var s2 := Finish(r.values, f);
    assert forall k: Series | k.metric.EstSmartFee? :: Unchanged(r.values, s2, k) by {
      forall k: Series | k.metric.EstSmartFee? ensures Unchanged(r.values, s2, k) {
        FeesOutsideFixedKeys(k);
      }
    }
    BansThenFinish(s, r.values, s2, f);
    r' := WithValues(r, s2);
  }

  /** Lines 239-282, once the fee loop has raised nothing. A ban entry without
      a reason ends the pass with only ban gauges written; otherwise the
      warnings counter, the remaining gauges and the latest block follow. */
  method AfterFees(r: ValidRegistry, f: Fetched) returns (p: Partial)
    ensures RegistryGrows(r, p.registry)
    ensures p.failure.None? <==> BansComplete(f.banned)
    ensures p.failure.Some? ==> p.failure.value == KeyError
    ensures p.failure.Some? ==>
              forall k: Series :: !BanTouched(f.banned, k) ==> Unchanged(r.values, p.registry.values, k)
    ensures forall k: Series :: !LateTouched(f.banned, k) ==> Unchanged(r.values, p.registry.values, k)
    ensures f.latestBlock.None? ==>
              forall k: Series :: k in BlockKeys ==> Unchanged(r.values, p.registry.values, k)
    ensures p.failure.None? ==> TailCopied(p.registry.values, f)
    ensures p.failure.None? ==>
              ValueOr0(p.registry.values, Plain(Warnings))
              == ValueOr0(r.values, Plain(Warnings)) + (if |f.network.warnings| > 0 then 1.0 else 0.0)
    ensures p.failure.None? && f.latestBlock.Some? ==>
              BlockCopied(p.registry.values, f.latestBlock.value)
    ensures p.failure.None? ==>
              BansWritten(p.registry.values, f.banned)
  {
    var bans := BanLoop(r.values, f.banned);
    var r1 := WithValues(r, bans.values);
    if bans.failure.Some? {
      assert forall k: Series :: !LateTouched(f.banned, k) ==> !BanTouched(f.banned, k);
      assert forall k: Series :: k in BlockKeys ==> !BanTouched(f.banned, k);
      return Partial(r1, bans.failure);
    }
    var r2 := Completed(r.values, r1, f);
    RegistryGrowsTransitive(r, r1, r2);
    p := Partial(r2, None);
  }

  /** The scalar stage followed by the fee loop, stated against the store before both. */
  lemma ScalarsThenFees(s: Store, s1: Store, sf: Store, targets: seq<int>, d: Daemon, f: Fetched)
    requires ScalarsCopied(s1, f)
    requires forall k: Series :: k !in ScalarKeys ==> Unchanged(s, s1, k)
    requires forall k: Series :: !FeeTouched(targets, k) ==> Unchanged(s1, sf, k)
    requires FeesWritten(s1, sf, targets, 0, d)
    ensures ScalarsCopied(sf, f)
    ensures forall k: Series :: k !in ScalarKeys && !FeeTouched(targets, k) ==> Unchanged(s, sf, k)
    ensures FeesWritten(s, sf, targets, 0, d)
  {
    forall k: Series | k !in ScalarKeys && !FeeTouched(targets, k) ensures Unchanged(s, sf, k) {
      assert Unchanged(s, s1, k) && Unchanged(s1, sf, k);
    }
    forall k: Series | k in ScalarKeys ensures Unchanged(s1, sf, k) {
      assert !FeeTouched(targets, k);
    }
    forall n ensures FeeWritten(s, sf, n, LastFee(targets, 0, d, n)) {
      var k := Plain(EstSmartFee(n));
      FeesOutsideFixedKeys(k);
      assert Unchanged(s, s1, k);
      assert FeeWritten(s1, sf, n, LastFee(targets, 0, d, n));
    }
  }

  /** The scalar stage counts no error, so the fee loop's counts hold from before it. */
  lemma ScalarsCountNothing(s: Store, s1: Store, sf: Store, errs: seq<Exn>)
    requires forall k: Series :: k !in ScalarKeys ==> Unchanged(s, s1, k)
    requires ErrorsRose(s1, sf, errs)
    ensures ErrorsRose(s, sf, errs)
  {
    forall errType ensures ValueOr0(sf, ErrorSeries(errType))
                           == ValueOr0(s, ErrorSeries(errType)) + Occurrences(errs, errType) as real {
      ScalarKeyStage(ErrorSeries(errType));
      assert Unchanged(s, s1, ErrorSeries(errType));
    }
  }

  /** The fee loop's effects survive the stages after it, which write none of its series. */
  lemma FeesThenLate(s: Store, sf: Store, sa: Store, targets: seq<int>, d: Daemon, f: Fetched)
    requires ScalarsCopied(sf, f)
    requires FeesWritten(s, sf, targets, 0, d)
    requires forall k: Series :: !LateTouched(f.banned, k) ==> Unchanged(sf, sa, k)
    ensures ScalarsCopied(sa, f)
    ensures FeesWritten(s, sa, targets, 0, d)
  {
    forall k: Series | k in ScalarKeys ensures Unchanged(sf, sa, k) {
      ScalarsNotLate(f.banned, k);
    }
    forall n ensures FeeWritten(s, sa, n, LastFee(targets, 0, d, n)) {
      var k := Plain(EstSmartFee(n));
      FeesOutsideFixedKeys(k);
      assert Unchanged(sf, sa, k);
      assert FeeWritten(s, sf, n, LastFee(targets, 0, d, n));
    }
  }

  /** The stages after the fee loop count no error. */
  lemma LateCountsNothing(s: Store, sf: Store, sa: Store, errs: seq<Exn>, bans: seq<Ban>)
    requires ErrorsRose(s, sf, errs)
    requires forall k: Series :: !LateTouched(bans, k) ==> Unchanged(sf, sa, k)
    ensures ErrorsRose(s, sa, errs)
  {
    forall errType ensures ValueOr0(sa, ErrorSeries(errType))
                           == ValueOr0(s, ErrorSeries(errType)) + Occurrences(errs, errType) as real {
      var k := ErrorSeries(errType);
      TailKeyStage(k);
      BlockKeyStage(k);
      assert !LateTouched(bans, k);
    }
  }

  /** Neither the warnings counter nor a latest-block gauge is written by the
      scalar stage or the fee loop. */
  lemma FeesKeepLate(s: Store, sf: Store, targets: seq<int>)
    requires forall k: Series :: k !in ScalarKeys && !FeeTouched(targets, k) ==> Unchanged(s, sf, k)
    ensures Unchanged(s, sf, Plain(Warnings))
    ensures forall k: Series :: k in BlockKeys ==> Unchanged(s, sf, k)
  {
    forall k: Series | k in BlockKeys ensures Unchanged(s, sf, k) {
      BlockKeyStage(k);
      ScalarKeyStage(k);
      assert k !in ScalarKeys && !FeeTouched(targets, k);
    }
    ScalarKeyStage(Plain(Warnings));
    assert !FeeTouched(targets, Plain(Warnings));
  }

  /** Lines 224-237: the scalar gauges, then the fee loop. */
  method ScalarsAndFees(r: ValidRegistry, targets: seq<int>, d: Daemon, f: Fetched) returns (p: Partial)
    ensures RegistryGrows(r, p.registry)
    ensures p.failure == FeeFailure(targets, 0, d)
    ensures ScalarsCopied(p.registry.values, f)
    ensures forall k: Series :: k !in ScalarKeys && !FeeTouched(targets, k) ==>
              Unchanged(r.values, p.registry.values, k)
    ensures FeesWritten(r.values, p.registry.values, targets, 0, d)
    ensures ErrorsRose(r.values, p.registry.values, FeeRetried(targets, 0, d))
    ensures Unchanged(r.values, p.registry.values, Plain(Warnings))
    ensures forall k: Series :: k in BlockKeys ==> Unchanged(r.values, p.registry.values, k)
  {
    var s1 := ApplyScalars(r.values, f);
    ScalarsGrow(r.values, s1, f);
    assert forall k: Series | k.metric.EstSmartFee? :: Unchanged(r.values, s1, k) by {
      forall k: Series | k.metric.EstSmartFee? ensures Unchanged(r.values, s1, k) {
        FeesOutsideFixedKeys(k);
      }
    }
    var r1 := WithValues(r, s1);
    var fees := FeeLoop(r1, targets, 0, d);
    RegistryGrowsTransitive(r, r1, fees.registry);
    ScalarsThenFees(r.values, s1, fees.registry.values, targets, d, f);
    ScalarsCountNothing(r.values, s1, fees.registry.values, FeeRetried(targets, 0, d));
    FeesKeepLate(r.values, fees.registry.values, targets);
    p := fees;
  }

  /** The warnings counter and the latest-block gauges, followed from before
      the scalar stage to the end of the pass. */
  lemma LateFromStart(s: Store, sf: Store, sa: Store, f: Fetched, failed: bool)
    requires Unchanged(s, sf, Plain(Warnings))
    requires forall k: Series :: k in BlockKeys ==> Unchanged(s, sf, k)
    requires failed ==> forall k: Series :: !BanTouched(f.banned, k) ==> Unchanged(sf, sa, k)
    requires !failed ==>
               ValueOr0(sa, Plain(Warnings))
               == ValueOr0(sf, Plain(Warnings)) + (if |f.network.warnings| > 0 then 1.0 else 0.0)
    requires f.latestBlock.None? ==> forall k: Series :: k in BlockKeys ==> Unchanged(sf, sa, k)
    ensures !failed ==>
              ValueOr0(sa, Plain(Warnings))
              == ValueOr0(s, Plain(Warnings)) + (if |f.network.warnings| > 0 then 1.0 else 0.0)
    ensures failed || f.latestBlock.None? ==> forall k: Series :: k in BlockKeys ==> Unchanged(s, sa, k)
  {
    if failed || f.latestBlock.None? {
      forall k: Series | k in BlockKeys ensures Unchanged(s, sa, k) {
        assert !BanTouched(f.banned, k);
        assert Unchanged(s, sf, k) && Unchanged(sf, sa, k);
      }
    }
  }

  /** What the writes of a pass raise once the calls of lines 210-222
      answered with `f`: the error of the first fee call that raised, else
      `KeyError` when a ban entry has no reason, else nothing. */
  function WriteFailure(targets: seq<int>, d: Daemon, f: Fetched): (e: Option<Exn>)
    ensures e.None? <==> FeesAnswered(targets, 0, d) && BansComplete(f.banned)
    ensures !FeesAnswered(targets, 0, d) ==> e == FeeFailure(targets, 0, d)
    ensures FeesAnswered(targets, 0, d) && !BansComplete(f.banned) ==> e == Some(KeyError)
  {
    if FeeFailure(targets, 0, d).Some? then FeeFailure(targets, 0, d)
    else if BansComplete(f.banned) then None
    else Some(KeyError)
  }

  /** The series a pass whose calls of lines 210-222 answered with `f` may
      write, as far as it gets: the scalar gauges and the fee loop's series
      always; the ban gauges under the entries' labels once every fee call
      answered; the warnings counter, the remaining gauges and the
      latest-block gauges once every ban entry has a reason too. */
  predicate PassTouched(targets: seq<int>, d: Daemon, f: Fetched, k: Series) {
    || k in ScalarKeys
    || FeeTouched(targets, k)
    || (FeesAnswered(targets, 0, d) && BanTouched(f.banned, k))
    || (FeesAnswered(targets, 0, d) && BansComplete(f.banned)
        && (k in TailKeys || k in BlockKeys || k == Plain(Warnings)))
  }

  /** A pass that the fee loop ended wrote nothing the pass may not. */
  lemma FeeFrameIsPassFrame(s: Store, sp: Store, targets: seq<int>, d: Daemon, f: Fetched)
    requires forall k: Series :: k !in ScalarKeys && !FeeTouched(targets, k) ==> Unchanged(s, sp, k)
    ensures forall k: Series :: !PassTouched(targets, d, f, k) ==> Unchanged(s, sp, k)
  {
  }

  /** Nor did a pass that got past the fee loop, whether or not the ban loop raised. */
  lemma LateFrameIsPassFrame(s: Store, sf: Store, sa: Store, targets: seq<int>, d: Daemon, f: Fetched)
    requires FeesAnswered(targets, 0, d)
    requires forall k: Series :: k !in ScalarKeys && !FeeTouched(targets, k) ==> Unchanged(s, sf, k)
    requires forall k: Series :: !LateTouched(f.banned, k) ==> Unchanged(sf, sa, k)
    requires !BansComplete(f.banned) ==> forall k: Series :: !BanTouched(f.banned, k) ==> Unchanged(sf, sa, k)
    ensures forall k: Series :: !PassTouched(targets, d, f, k) ==> Unchanged(s, sa, k)
  {
    forall k: Series | !PassTouched(targets, d, f, k) ensures Unchanged(s, sa, k) {
      assert Unchanged(s, sf, k);
      if BansComplete(f.banned) {
        assert !LateTouched(f.banned, k);
      } else {
        assert !BanTouched(f.banned, k);
      }
    }
  }

  /** Lines 224-282, once every call of lines 210-222 has answered. */
  method WritePhase(r: ValidRegistry, targets: seq<int>, d: Daemon, f: Fetched) returns (p: Partial)
    ensures RegistryGrows(r, p.registry)
    ensures p.failure == WriteFailure(targets, d, f)
    ensures ScalarsCopied(p.registry.values, f)
    ensures forall k: Series :: !PassTouched(targets, d, f, k) ==> Unchanged(r.values, p.registry.values, k)
    ensures FeesWritten(r.values, p.registry.values, targets, 0, d)
    ensures ErrorsRose(r.values, p.registry.values, FeeRetried(targets, 0, d))
    ensures p.failure.Some? || f.latestBlock.None? ==>
              forall k: Series :: k in BlockKeys ==> Unchanged(r.values, p.registry.values, k)
    ensures p.failure.None? ==> TailCopied(p.registry.values, f)
    ensures p.failure.None? ==>
              ValueOr0(p.registry.values, Plain(Warnings))
              == ValueOr0(r.values, Plain(Warnings)) + (if |f.network.warnings| > 0 then 1.0 else 0.0)
    ensures p.failure.None? && f.latestBlock.Some? ==>
              BlockCopied(p.registry.values, f.latestBlock.value)
    ensures p.failure.None? ==> BansWritten(p.registry.values, f.banned)
  {
    var fees := ScalarsAndFees(r, targets, d, f);
    if fees.failure.Some? {
      FeeFrameIsPassFrame(r.values, fees.registry.values, targets, d, f);
      return fees;
    }
    var rest := AfterFees(fees.registry, f);
    RegistryGrowsTransitive(r, fees.registry, rest.registry);
    FeesThenLate(r.values, fees.registry.values, rest.registry.values, targets, d, f);
    LateCountsNothing(r.values, fees.registry.values, rest.registry.values, FeeRetried(targets, 0, d), f.banned);
    LateFrameIsPassFrame(r.values, fees.registry.values, rest.registry.values, targets, d, f);
    LateFromStart(r.values, fees.registry.values, rest.registry.values, f, rest.failure.Some?);
    p := rest;
  }

  /** Counting retried failures touches error counters only, so the fee
      writes hold against the store before the count as well. */
  lemma CountedThenFees(s: Store, s0: Store, sp: Store, targets: seq<int>, d: Daemon)
    requires forall k: Series :: k.metric != ExporterErrors ==> Unchanged(s, s0, k)
    requires FeesWritten(s0, sp, targets, 0, d)
    ensures FeesWritten(s, sp, targets, 0, d)
  {
    forall n ensures FeeWritten(s, sp, n, LastFee(targets, 0, d, n)) {
      assert Unchanged(s, s0, Plain(EstSmartFee(n)));
      assert FeeWritten(s0, sp, n, LastFee(targets, 0, d, n));
    }
  }

  /** Likewise for the series the pass leaves alone. */
  lemma CountedThenFrame(s: Store, s0: Store, sp: Store, targets: seq<int>, d: Daemon, f: Fetched)
    requires forall k: Series :: k.metric != ExporterErrors ==> Unchanged(s, s0, k)
    requires forall k: Series :: !PassTouched(targets, d, f, k) ==> Unchanged(s0, sp, k)
    ensures forall k: Series :: !PassTouched(targets, d, f, k) ==> Unchanged(s, sp, k)
  {
    forall k: Series | !PassTouched(targets, d, f, k) ensures Unchanged(s, sp, k) {
      assert Unchanged(s, s0, k) && Unchanged(s0, sp, k);
    }
  }

  /** Likewise for the latest-block gauges. */
  lemma CountedThenBlockKept(s: Store, s0: Store, sp: Store)
    requires forall k: Series :: k.metric != ExporterErrors ==> Unchanged(s, s0, k)
    requires forall k: Series :: k in BlockKeys ==> Unchanged(s0, sp, k)
    ensures forall k: Series :: k in BlockKeys ==> Unchanged(s, sp, k)
  {
    forall k: Series | k in BlockKeys ensures Unchanged(s, sp, k) {
      BlockKeyStage(k);
      assert k.metric != ExporterErrors;
      assert Unchanged(s, s0, k) && Unchanged(s0, sp, k);
    }
  }

  /** Lines 224-282 after the failures retried during lines 210-222 were
      counted: `r` is the registry before the count, `r0` after it. */
  method WritesAfterCount(r: ValidRegistry, r0: ValidRegistry, targets: seq<int>, d: Daemon, f: Fetched)
      returns (p: Partial)
    requires RegistryGrows(r, r0)
    requires forall k: Series :: k.metric != ExporterErrors ==> Unchanged(r.values, r0.values, k)
    ensures RegistryGrows(r, p.registry)
    ensures p.failure == WriteFailure(targets, d, f)
    ensures ScalarsCopied(p.registry.values, f)
    ensures forall k: Series :: !PassTouched(targets, d, f, k) ==> Unchanged(r.values, p.registry.values, k)
    ensures FeesWritten(r.values, p.registry.values, targets, 0, d)
    ensures ErrorsRose(r0.values, p.registry.values, FeeRetried(targets, 0, d))
    ensures p.failure.None? ==>
              ValueOr0(p.registry.values, Plain(Warnings))
              == ValueOr0(r.values, Plain(Warnings)) + (if |f.network.warnings| > 0 then 1.0 else 0.0)
    ensures p.failure.None? ==> TailCopied(p.registry.values, f)
    ensures p.failure.None? ==> BansWritten(p.registry.values, f.banned)
    ensures p.failure.None? && f.latestBlock.Some? ==> BlockCopied(p.registry.values, f.latestBlock.value)
    ensures p.failure.Some? || f.latestBlock.None? ==>
              forall k: Series :: k in BlockKeys ==> Unchanged(r.values, p.registry.values, k)
  {
    p := WritePhase(r0, targets, d, f);
    RegistryGrowsTransitive(r, r0, p.registry);
    assert Unchanged(r.values, r0.values, Plain(Warnings));
    CountedThenFrame(r.values, r0.values, p.registry.values, targets, d, f);
    CountedThenFees(r.values, r0.values, p.registry.values, targets, d);
    if p.failure.Some? || f.latestBlock.None? {
      CountedThenBlockKept(r.values, r0.values, p.registry.values);
    }
  }

  /** `on_retry` for each failure retried during lines 210-222, in order. */
  method CountRetried(r: ValidRegistry, retried: seq<Exn>) returns (r0: ValidRegistry)
    ensures RegistryGrows(r, r0)
    ensures ErrorsRose(r.values, r0.values, retried)
    ensures forall k: Series :: k.metric != ExporterErrors ==> Unchanged(r.values, r0.values, k)
  {
    CountAllCounts(r.values, retried);
    r0 := WithValues(r, CountAll(r.values, retried));
  }

  /** The pass once the calls of lines 210-222 have ended as `fetch` says:
      their retried failures are counted first, then a failed fetch ends the
      pass and a complete one goes on to the writes. */
  method Pass(r: ValidRegistry, targets: seq<int>, d: Daemon, fetch: Fetch) returns (p: Partial)
    ensures RegistryGrows(r, p.registry)
    ensures fetch.FetchFailed? ==> p.failure == Some(fetch.error)
    ensures fetch.FetchFailed? ==> ErrorsRose(r.values, p.registry.values, fetch.retried)
    ensures fetch.FetchFailed? ==>
              forall k: Series :: k.metric != ExporterErrors ==> Unchanged(r.values, p.registry.values, k)
    ensures fetch.FetchOk? ==> p.failure == WriteFailure(targets, d, fetch.fetched)
    ensures fetch.FetchOk? ==> ScalarsCopied(p.registry.values, fetch.fetched)
    ensures fetch.FetchOk? ==>
              forall k: Series :: !PassTouched(targets, d, fetch.fetched, k) ==> Unchanged(r.values, p.registry.values, k)
    ensures fetch.FetchOk? ==> ErrorsRose(r.values, p.registry.values, fetch.retried + FeeRetried(targets, 0, d))
    ensures fetch.FetchOk? ==> FeesWritten(r.values, p.registry.values, targets, 0, d)
    ensures p.failure.None? ==>
              ValueOr0(p.registry.values, Plain(Warnings))
              == ValueOr0(r.values, Plain(Warnings))
                 + (if |fetch.fetched.network.warnings| > 0 then 1.0 else 0.0)
    ensures p.failure.None? ==> TailCopied(p.registry.values, fetch.fetched)
    ensures p.failure.None? ==> BansWritten(p.registry.values, fetch.fetched.banned)
    ensures p.failure.None? && fetch.fetched.latestBlock.Some? ==>
              BlockCopied(p.registry.values, fetch.fetched.latestBlock.value)
    ensures p.failure.Some? || fetch.fetched.latestBlock.None? ==>
              forall k: Series :: k in BlockKeys ==> Unchanged(r.values, p.registry.values, k)
  {
    var r0 := CountRetried(r, fetch.retried);
    match fetch
    case FetchFailed(_, e) =>
      p := Partial(r0, Some(e));
      CountedThenBlockKept(r.values, r0.values, r0.values);
    case FetchOk(_, f) =>
      p := WritesAfterCount(r, r0, targets, d, f);
      ErrorsRoseChain(r.values, r0.values, p.registry.values, fetch.retried, FeeRetried(targets, 0, d));
  }

  /** Whether one refresh runs to the end: every call that can end it
      answers and every ban entry has a reason. */
  predicate PassCompletes(targets: seq<int>, d: Daemon) {
    FetchAll(d).FetchOk? && FeesAnswered(targets, 0, d) && BansComplete(FetchAll(d).fetched.banned)
  }

  /** What one refresh raises, if anything: the error of the first call of
      lines 210-222 that raised, else that of the first fee call that raised,
      else `KeyError` when a ban entry has no reason. */
  function PassFailure(targets: seq<int>, d: Daemon): (e: Option<Exn>)
    ensures e.None? <==> PassCompletes(targets, d)
    ensures FetchAll(d).FetchFailed? ==> e == Some(FetchAll(d).error)
    ensures FetchAll(d).FetchOk? && !FeesAnswered(targets, 0, d) ==> e == FeeFailure(targets, 0, d)
    ensures FetchAll(d).FetchOk? && FeesAnswered(targets, 0, d) && !BansComplete(FetchAll(d).fetched.banned) ==>
              e == Some(KeyError)
  {
    match FetchAll(d)
    case FetchFailed(_, err) => Some(err)
    case FetchOk(_, f) => WriteFailure(targets, d, f)
  }

  /** What one call of `refresh_metrics()` against a daemon behaving as `d`
      does to the registry `r`, ending as `p`:
      - it raises exactly `PassFailure(targets, d)`;
      - when the calls of lines 210-222 raise, only error counters change, and
        they rise by the failures reported to `on_retry`;
      - otherwise the scalar gauges hold their replies, only the series the
        pass reaches may change, the error counters rise by the failures
        reported during those calls and then the fee calls, and every fee
        gauge is as the fee loop leaves it;
      - a completed pass bumps the warnings counter exactly when a warning is
        present, copies the remaining gauges and the ban times, and writes the
        latest-block gauges when `getblock` answered;
      - the latest-block gauges are untouched when `getblock` failed or the
        pass raised. */
  ghost predicate RefreshSpec(r: ValidRegistry, targets: seq<int>, d: Daemon, p: Partial) {
    && RegistryGrows(r, p.registry)
    && p.failure == PassFailure(targets, d)
    && (FetchAll(d).FetchFailed? ==>
          && ErrorsRose(r.values, p.registry.values, FetchAll(d).retried)
          && forall k: Series :: k.metric != ExporterErrors ==> Unchanged(r.values, p.registry.values, k))
    && (FetchAll(d).FetchOk? ==>
          && ScalarsCopied(p.registry.values, FetchAll(d).fetched)
          && (forall k: Series :: !PassTouched(targets, d, FetchAll(d).fetched, k) ==>
                Unchanged(r.values, p.registry.values, k))
          && ErrorsRose(r.values, p.registry.values, FetchAll(d).retried + FeeRetried(targets, 0, d))
          && FeesWritten(r.values, p.registry.values, targets, 0, d))
    && (PassCompletes(targets, d) ==>
          && ValueOr0(p.registry.values, Plain(Warnings))
             == ValueOr0(r.values, Plain(Warnings))
                + (if |FetchAll(d).fetched.network.warnings| > 0 then 1.0 else 0.0)
          && TailCopied(p.registry.values, FetchAll(d).fetched)
          && BansWritten(p.registry.values, FetchAll(d).fetched.banned)
          && (GetBlock(d.block).Some? ==> BlockCopied(p.registry.values, GetBlock(d.block).value)))
    && (p.failure.Some? || GetBlock(d.block).None? ==>
          forall k: Series :: k in BlockKeys ==> Unchanged(r.values, p.registry.values, k))
  }

  /** One call of `refresh_metrics()` (lines 209-282): the registry
      afterwards, and the exception that ended the pass early, if any. */
  method RefreshMetrics(r: ValidRegistry, targets: seq<int>, d: Daemon) returns (p: Partial)
    ensures RefreshSpec(r, targets, d, p)
  {
    p := Pass(r, targets, d, FetchAll(d));
  }
}
