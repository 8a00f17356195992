/** The daemon's replies, reduced to the fields the exporter reads, and the
    daemon itself as a script of attempt outcomes per call
    (bitcoind-monitor.py:210-222, 203). */
module RpcTypes {
  import opened Wrappers
  import opened Gateway

  /** `getmemoryinfo("stats")["locked"]`. */
  datatype MemInfo = MemInfo(used: int, free: int, total: int, locked: int,
                             chunksUsed: int, chunksFree: int)

  /** `getblockchaininfo`. */
  datatype ChainInfo = ChainInfo(blocks: int, difficulty: real, sizeOnDisk: int,
                                 verificationProgress: real, bestBlockHash: string)

  /** `getnetworkinfo`; `warnings` is the daemon's warning text, empty when there is none. */
  datatype NetworkInfo = NetworkInfo(connections: int, version: int, protocolVersion: int,
                                     warnings: string)

  /** One element of `getchaintips`; only the number of elements is used. */
  datatype ChainTip = ChainTip(height: int, hash: string, branchLen: int, status: string)

  /** `getmempoolinfo`. */
  datatype MempoolInfo = MempoolInfo(bytes: int, size: int, usage: int)

  /** `getnettotals`. */
  datatype NetTotals = NetTotals(totalBytesRecv: int, totalBytesSent: int)

  /** A transaction of `getblock <hash> 2`: its inputs are only counted, its
      outputs are counted and their values summed. */
  datatype TxIn = TxIn(prevout: string)
  datatype TxOut = TxOut(value: real)
  datatype Tx = Tx(vin: seq<TxIn>, vout: seq<TxOut>)

  datatype Block = Block(size: int, nTx: int, height: int, weight: int, tx: seq<Tx>)

  /** One entry of `listbanned`; daemons that dropped the `ban_reason` field
      give entries without it. */
  datatype Ban = Ban(address: string, banReason: Option<string>, banCreated: int, bannedUntil: int)

  /** `estimatesmartfee n`: `feerate` is absent when the daemon has too little data. */
  datatype FeeReply = FeeReply(feerate: Option<real>)

  /** What the daemon does when each call of one refresh is made. The fee
      estimates are asked for once per entry of the target list, so
      `smartFee(i, n)` is the script of the `i`-th of those calls, made for
      target `n`; a target listed twice is asked twice and may be answered
      differently. */
  datatype Daemon = Daemon(
    uptime: seq<CallOutcome<int>>,
    memoryInfo: seq<CallOutcome<MemInfo>>,
    blockchainInfo: seq<CallOutcome<ChainInfo>>,
    networkInfo: seq<CallOutcome<NetworkInfo>>,
    chainTips: seq<CallOutcome<seq<ChainTip>>>,
    mempoolInfo: seq<CallOutcome<MempoolInfo>>,
    netTotals: seq<CallOutcome<NetTotals>>,
    block: seq<CallOutcome<Block>>,
    hashps120: seq<CallOutcome<real>>,
    hashpsNeg1: seq<CallOutcome<real>>,
    hashps1: seq<CallOutcome<real>>,
    banned: seq<CallOutcome<seq<Ban>>>,
    smartFee: (nat, int) -> seq<CallOutcome<FeeReply>>)
}
