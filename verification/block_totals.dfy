/** The per-transaction walk over the latest block (bitcoind-monitor.py:271-278):
    input and output counts and the summed output value. The sums are defined
    recursively over the transaction list; the method is the accumulating loop
    the exporter runs, proved to compute them. */
module BlockTotals {
  import opened RpcTypes

  function SumInputs(txs: seq<Tx>): nat
    decreases |txs|
  {
    if |txs| == 0 then 0 else |txs[0].vin| + SumInputs(txs[1..])
  }

  function SumOutputs(txs: seq<Tx>): nat
    decreases |txs|
  {
    if |txs| == 0 then 0 else |txs[0].vout| + SumOutputs(txs[1..])
  }

  /** `sum(o["value"] for o in vout)`. */
  function OutputValue(outs: seq<TxOut>): real
    decreases |outs|
  {
    if |outs| == 0 then 0.0 else outs[0].value + OutputValue(outs[1..])
  }

  function SumValue(txs: seq<Tx>): real
    decreases |txs|
  {
    if |txs| == 0 then 0.0 else OutputValue(txs[0].vout) + SumValue(txs[1..])
  }

  /** Extending the list by one transaction adds that transaction's share to
      each sum: what lets a left-to-right loop accumulate them. */
  lemma {:induction false} SumsSnoc(txs: seq<Tx>, t: Tx)
    ensures SumInputs(txs + [t]) == SumInputs(txs) + |t.vin|
    ensures SumOutputs(txs + [t]) == SumOutputs(txs) + |t.vout|
    ensures SumValue(txs + [t]) == SumValue(txs) + OutputValue(t.vout)
    decreases |txs|
  {
    if |txs| > 0 {
      assert (txs + [t])[1..] == txs[1..] + [t];
      SumsSnoc(txs[1..], t);
    } else {
      assert [t][1..] == [];
    }
  }

  /** The exporter's loop over `latest_block["tx"]`. */
  method FoldTotals(txs: seq<Tx>) returns (inputs: nat, outputs: nat, value: real)
    ensures inputs == SumInputs(txs)
    ensures outputs == SumOutputs(txs)
    ensures value == SumValue(txs)
  {
    inputs, outputs, value := 0, 0, 0.0;
    var i := 0;
    while i < |txs|
      invariant 0 <= i <= |txs|
      invariant inputs == SumInputs(txs[..i])
      invariant outputs == SumOutputs(txs[..i])
      invariant value == SumValue(txs[..i])
    {
      SumsSnoc(txs[..i], txs[i]);
      assert txs[..i + 1] == txs[..i] + [txs[i]];
      inputs := inputs + |txs[i].vin|;
      outputs := outputs + |txs[i].vout|;
      value := value + OutputValue(txs[i].vout);
      i := i + 1;
    }
    assert txs[..i] == txs;
  }
}
