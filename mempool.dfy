/** The getmempoolinfo collector (pkg/bitcoind/mempool.go). */
module Mempool {
  import opened Metrics
  import opened Channels
  import opened Ints
  import opened Rpc

  const ChainLabel: seq<string> := ["chain"]

  /** `MempoolDescriptors`, in declaration order. */
  const MempoolDescriptors: seq<Desc> := [
    Desc("bitcoind_mempool_size", "Current mempool transaction count", ChainLabel),
    Desc("bitcoind_mempool_bytes", "Sum of all virtual transaction sizes as defined in BIP 141. Differs from actual serialized size because witness data is discounted", ChainLabel),
    Desc("bitcoind_mempool_usage", "Total memory usage for the mempool", ChainLabel),
    Desc("bitcoind_mempool_total_fee", "Total fees for the mempool in BTC, ignoring modified fees through prioritisetransaction", ChainLabel),
    Desc("bitcoind_mempool_max_bytes", "Maximum memory usage for the mempool", ChainLabel),
    Desc("bitcoind_mempool_min_fee", "Minimum fee rate in BTC/kvB for transactions to be accepted. Is the maximum of minrelaytxfee and minimum mempool fee", ChainLabel),
    Desc("bitcoind_mempool_min_relay_tx_fee", "Current minimum relay fee for transactions", ChainLabel),
    Desc("bitcoind_mempool_incremental_relay_fee", "Minimum fee rate increment for mempool limiting or replacement in BTC/kvB", ChainLabel),
    Desc("bitcoind_mempool_unbroadcast_count", "Current number of transactions that haven't passed initial broadcast yet", ChainLabel),
    Desc("bitcoind_mempool_fullrbf", "True if the mempool accepts RBF without replaceability signaling inspection", ChainLabel)
  ]

  /** The decoded getmempoolinfo response; fee rates are reals standing for float64. */
  datatype GetMempoolInfoResult = GetMempoolInfoResult(
    loaded: bool,
    fullRbf: bool,
    size: Int64,
    bytes: Int64,
    usage: Int64,
    totalFee: real,
    maxBytes: Int64,
    minFee: real,
    minRelayTxFee: real,
    incrementalRelayFee: real,
    unbroadcastCount: Int64)

  /** The shape of `MempoolDescriptors` Collect relies on: ten descriptors, each with one label name. */
  ghost predicate WellShaped(descs: seq<Desc>) {
    |descs| == 10 && forall k :: 0 <= k < 10 ==> |descs[k].variableLabels| == 1
  }

  /** The value type of the `k`-th metric: nine gauges, then the untyped full-RBF flag. */
  function Kind(k: nat): ValueType {
    if k < 9 then GaugeValue else UntypedValue
  }

  /** The value of the `k`-th metric: a response field, or 1 or 0 for the full-RBF flag. */
  function Field(info: GetMempoolInfoResult, k: nat): real
    requires k < 10
  {
    match k
    case 0 => info.size as real
    case 1 => info.bytes as real
    case 2 => info.usage as real
    case 3 => info.totalFee
    case 4 => info.maxBytes as real
    case 5 => info.minFee
    case 6 => info.minRelayTxFee
    case 7 => info.incrementalRelayFee
    case 8 => info.unbroadcastCount as real
    case 9 => if info.fullRbf then 1.0 else 0.0
  }

  /** The `k`-th metric Collect sends, `descs` being `MempoolDescriptors`. */
  function Sample(descs: seq<Desc>, chain: string, info: GetMempoolInfoResult, k: nat): Metric
    requires |descs| == 10 && k < 10
  {
    DiscardError(NewConstMetric(descs[k], Kind(k), Field(info, k), [chain]))
  }

  /** The first `k` metrics Collect sends, in order. */
  function SamplesUpTo(descs: seq<Desc>, chain: string, info: GetMempoolInfoResult, k: nat): seq<Metric>
    requires |descs| == 10 && k <= 10
  {
    if k == 0 then [] else SamplesUpTo(descs, chain, info, k - 1) + [Sample(descs, chain, info, k - 1)]
  }

  /** The ten metrics a successful Collect sends, in the order it sends them. */
  function MempoolMetrics(descs: seq<Desc>, chain: string, info: GetMempoolInfoResult): seq<Metric>
    requires |descs| == 10
  {
    SamplesUpTo(descs, chain, info, 10)
  }

  /** What Collect sends, given the getblockchaininfo and getmempoolinfo replies. */
  function Collected(chain: Reply<GetBlockChainInfoResult>, reply: Reply<GetMempoolInfoResult>): seq<Metric> {
    if chain.Decoded? && reply.Decoded? then MempoolMetrics(MempoolDescriptors, chain.value.chain, reply.value) else []
  }

  /** `(*MempoolCollector).Describe` */
  method Describe(out: Channel<Desc>)
    modifies out
    ensures out.sent == old(out.sent) + MempoolDescriptors
  {
    SendEach(out, MempoolDescriptors);
  }

  /**
   * `metric, _ = NewConstMetric(desc, valueType, value, labelValues...); out <- metric`
   * for the `k`-th metric; `base` is what the channel held before the first one.
   */
  method SendSample(out: Channel<Metric>, desc: Desc, valueType: ValueType, value: real, labelValues: seq<string>,
                    ghost base: seq<Metric>, ghost descs: seq<Desc>, ghost chain: string, ghost info: GetMempoolInfoResult,
                    ghost k: nat)
    requires |descs| == 10 && k < 10 && desc == descs[k]
    requires valueType == Kind(k) && value == Field(info, k) && labelValues == [chain]
    requires out.sent == base + SamplesUpTo(descs, chain, info, k)
    modifies out
    ensures out.sent == base + SamplesUpTo(descs, chain, info, k + 1)
  {
    var metric := DiscardError(NewConstMetric(desc, valueType, value, labelValues));
    out.Send(metric);
  }

  /** `(*MempoolCollector).Collect`, given the two RPC replies. */
  method Collect(out: Channel<Metric>, chain: Reply<GetBlockChainInfoResult>, reply: Reply<GetMempoolInfoResult>)
    modifies out
    ensures out.sent == old(out.sent) + Collected(chain, reply)
  {
    if !chain.Decoded? {
      return;  // "RPC call getblockchaininfo failed" is logged
    }
    if reply.CallFailed? {
      return;  // "RPC call getmempoolinfo failed" is logged
    }
    if reply.DecodeFailed? {
      return;  // "Failed to decode getmempoolinfo response" is logged
    }
    DescriptorsShape();
    CollectInfo(out, MempoolDescriptors, chain.value.chain, reply.value);
  }

  /** The sends of Collect once both replies are in; `descs` is `MempoolDescriptors`. */
  method CollectInfo(out: Channel<Metric>, descs: seq<Desc>, c: string, info: GetMempoolInfoResult)
    requires WellShaped(descs)
    modifies out
    ensures out.sent == old(out.sent) + MempoolMetrics(descs, c, info)
  {
    ghost var base := out.sent;
    SendSample(out, descs[0], GaugeValue, info.size as real, [c], base, descs, c, info, 0);
    SendSample(out, descs[1], GaugeValue, info.bytes as real, [c], base, descs, c, info, 1);
    SendSample(out, descs[2], GaugeValue, info.usage as real, [c], base, descs, c, info, 2);
    SendSample(out, descs[3], GaugeValue, info.totalFee, [c], base, descs, c, info, 3);
    SendSample(out, descs[4], GaugeValue, info.maxBytes as real, [c], base, descs, c, info, 4);
    SendSample(out, descs[5], GaugeValue, info.minFee, [c], base, descs, c, info, 5);
    SendSample(out, descs[6], GaugeValue, info.minRelayTxFee, [c], base, descs, c, info, 6);
    SendSample(out, descs[7], GaugeValue, info.incrementalRelayFee, [c], base, descs, c, info, 7);
    SendSample(out, descs[8], GaugeValue, info.unbroadcastCount as real, [c], base, descs, c, info, 8);
    if info.fullRbf {
      SendSample(out, descs[9], UntypedValue, 1.0, [c], base, descs, c, info, 9);
    } else {
      SendSample(out, descs[9], UntypedValue, 0.0, [c], base, descs, c, info, 9);
    }
  }

  /** Ten descriptors, each with the single label name `chain`. */
  lemma DescriptorsShape()
    ensures WellShaped(MempoolDescriptors)
    ensures forall k :: 0 <= k < 10 ==> MempoolDescriptors[k].variableLabels == ["chain"]
  {
  }

  /** The `k`-th metric is the `k`-th descriptor with its value type and value, labelled with the chain. */
  lemma {:induction false} SamplesUpToTable(descs: seq<Desc>, chain: string, info: GetMempoolInfoResult, n: nat)
    requires WellShaped(descs) && n <= 10
    ensures |SamplesUpTo(descs, chain, info, n)| == n
    ensures forall k :: 0 <= k < n ==>
      SamplesUpTo(descs, chain, info, n)[k] == ConstMetric(descs[k], Kind(k), Field(info, k), [chain])
  {
    if n > 0 {
      SamplesUpToTable(descs, chain, info, n - 1);
    }
  }

  /**
   * On success: one metric per descriptor, in descriptor order, each labelled
   * with the chain; gauges 0..8 carry their fields and number 9 is the
   * untyped full-RBF flag.
   */
  lemma MempoolTable(chain: string, info: GetMempoolInfoResult)
    ensures |MempoolMetrics(MempoolDescriptors, chain, info)| == 10
    ensures forall k :: 0 <= k < 9 ==>
      MempoolMetrics(MempoolDescriptors, chain, info)[k]
        == ConstMetric(MempoolDescriptors[k], GaugeValue, Field(info, k), [chain])
    ensures MempoolMetrics(MempoolDescriptors, chain, info)[9]
      == ConstMetric(MempoolDescriptors[9], UntypedValue, if info.fullRbf then 1.0 else 0.0, [chain])
  {
    DescriptorsShape();
    SamplesUpToTable(MempoolDescriptors, chain, info, 10);
  }

  /** The fullrbf metric is 1 if and only if the mempool accepts full RBF, and 0 otherwise. */
  lemma FullRbfFlag(chain: string, info: GetMempoolInfoResult)
    ensures |MempoolMetrics(MempoolDescriptors, chain, info)| == 10
    ensures MempoolMetrics(MempoolDescriptors, chain, info)[9].ConstMetric?
    ensures MempoolMetrics(MempoolDescriptors, chain, info)[9].value == 1.0 <==> info.fullRbf
    ensures MempoolMetrics(MempoolDescriptors, chain, info)[9].value == 0.0 <==> !info.fullRbf
  {
    MempoolTable(chain, info);
  }

  /** The `loaded` field never reaches a metric. */
  lemma LoadedIgnored(descs: seq<Desc>, chain: string, info: GetMempoolInfoResult, loaded: bool)
    requires WellShaped(descs)
    ensures MempoolMetrics(descs, chain, info.(loaded := loaded)) == MempoolMetrics(descs, chain, info)
  {
    SamplesUpToTable(descs, chain, info, 10);
    SamplesUpToTable(descs, chain, info.(loaded := loaded), 10);
  }

  /** Collect sends all ten metrics when both replies decode, and nothing otherwise. */
  lemma CollectedCount(chain: Reply<GetBlockChainInfoResult>, reply: Reply<GetMempoolInfoResult>)
    ensures |Collected(chain, reply)| == if chain.Decoded? && reply.Decoded? then 10 else 0
  {
    if chain.Decoded? && reply.Decoded? {
      MempoolTable(chain.value.chain, reply.value);
    }
  }

  /** Everything Collect sends passes the registry's checks against what Describe sends. */
  lemma CollectedConsistent(chain: Reply<GetBlockChainInfoResult>, reply: Reply<GetMempoolInfoResult>)
    ensures forall m :: m in Collected(chain, reply) ==> Consistent(m, MempoolDescriptors)
  {
    if chain.Decoded? && reply.Decoded? {
      var ms := Collected(chain, reply);
      DescriptorsShape();
      SamplesUpToTable(MempoolDescriptors, chain.value.chain, reply.value, 10);
      forall i | 0 <= i < |ms| ensures Consistent(ms[i], MempoolDescriptors) {
        assert ms[i].desc == MempoolDescriptors[i];
      }
    }
  }
}
