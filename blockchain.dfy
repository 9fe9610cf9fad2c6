/** The getblockchaininfo collector of pkg/bitcoind/blockchain.go. */
module Blockchain {
  import opened Metrics
  import opened Channels
  import opened Rpc

  const ChainLabel: seq<string> := ["chain"]

  /** `BlockchainDescriptors`, in declaration order. */
  const BlockchainDescriptors: seq<Desc> := [
    Desc("bitcoind_blockchain_blocks", "Height of the most-work fully-validated chain", ChainLabel),
    Desc("bitcoind_blockchain_headers", "Current number of headers validated", ChainLabel),
    Desc("bitcoind_blockchain_difficulty", "Current difficulty metric", ChainLabel),
    Desc("bitcoind_blockchain_median_time", "Median time for the current best block", ChainLabel),
    Desc("bitcoind_blockchain_verification_progress", "Estimate of verification progress on range [0..1]", ChainLabel),
    Desc("bitcoind_initial_block_download", "Estimate of whether this node is in Initial Block Download mode", ChainLabel),
    Desc("bitcoind_blockchain_size_on_disk", "Estimated size of the block and undo files on disk", ChainLabel),
    Desc("bitcoind_blockchain_prune_height", "Height of the last block pruned, plus one", ChainLabel)
  ]

  /** The shape of `BlockchainDescriptors` Collect relies on: eight descriptors, each with one label name. */
  ghost predicate WellShaped(descs: seq<Desc>) {
    |descs| == 8 && forall k :: 0 <= k < 8 ==> |descs[k].variableLabels| == 1
  }

  /** The value type of the `k`-th metric: blocks and headers count, the download flag is untyped, the rest are gauges. */
  function Kind(k: nat): ValueType {
    if k < 2 then CounterValue else if k == 5 then UntypedValue else GaugeValue
  }

  /** The value of the `k`-th metric: a response field, or 1 or 0 for the initial-block-download flag. */
  function Field(info: GetBlockChainInfoResult, k: nat): real
    requires k < 8
  {
    match k
    case 0 => info.blocks as real
    case 1 => info.headers as real
    case 2 => info.difficulty
    case 3 => info.medianTime as real
    case 4 => info.verificationProgress
    case 5 => if info.initialBlockDownload then 1.0 else 0.0
    case 6 => info.sizeOnDisk as real
    case 7 => info.pruneHeight as real
  }

  /** The `k`-th metric Collect sends, `descs` being `BlockchainDescriptors`. */
  function Sample(descs: seq<Desc>, info: GetBlockChainInfoResult, k: nat): Metric
    requires |descs| == 8 && k < 8
  {
    DiscardError(NewConstMetric(descs[k], Kind(k), Field(info, k), [info.chain]))
  }

  /** The first `k` metrics Collect sends, in order. */
  function SamplesUpTo(descs: seq<Desc>, info: GetBlockChainInfoResult, k: nat): seq<Metric>
    requires |descs| == 8 && k <= 8
  {
    if k == 0 then [] else SamplesUpTo(descs, info, k - 1) + [Sample(descs, info, k - 1)]
  }

  /** The eight metrics a successful Collect sends, in the order it sends them. */
  function BlockchainMetrics(descs: seq<Desc>, info: GetBlockChainInfoResult): seq<Metric>
    requires |descs| == 8
  {
    SamplesUpTo(descs, info, 8)
  }

  /** What Collect sends, given the getblockchaininfo reply. */
  function Collected(reply: Reply<GetBlockChainInfoResult>): seq<Metric> {
    if reply.Decoded? then BlockchainMetrics(BlockchainDescriptors, reply.value) else []
  }

  /** `(*BlockchainCollector).Describe` */
  method Describe(out: Channel<Desc>)
    modifies out
    ensures out.sent == old(out.sent) + BlockchainDescriptors
  {
    SendEach(out, BlockchainDescriptors);
  }

  /**
   * `metric, _ = NewConstMetric(desc, valueType, value, labelValues...); out <- metric`
   * for the `k`-th metric; `base` is what the channel held before the first one.
   */
  method SendSample(out: Channel<Metric>, desc: Desc, valueType: ValueType, value: real, labelValues: seq<string>,
                    ghost base: seq<Metric>, ghost descs: seq<Desc>, ghost info: GetBlockChainInfoResult, ghost k: nat)
    requires |descs| == 8 && k < 8 && desc == descs[k]
    requires valueType == Kind(k) && value == Field(info, k) && labelValues == [info.chain]
    requires out.sent == base + SamplesUpTo(descs, info, k)
    modifies out
    ensures out.sent == base + SamplesUpTo(descs, info, k + 1)
  {
    var metric := DiscardError(NewConstMetric(desc, valueType, value, labelValues));
    out.Send(metric);
  }

  /** `(*BlockchainCollector).Collect`, given the getblockchaininfo reply. */
  method Collect(out: Channel<Metric>, reply: Reply<GetBlockChainInfoResult>)
    modifies out
    ensures out.sent == old(out.sent) + Collected(reply)
  {
    if !reply.Decoded? {
      return;  // "RPC call getblockchaininfo failed" is logged
    }
    DescriptorsShape();
    CollectInfo(out, BlockchainDescriptors, reply.value);
  }

  /** The sends of Collect once the reply is in; `descs` is `BlockchainDescriptors`. */
  method CollectInfo(out: Channel<Metric>, descs: seq<Desc>, info: GetBlockChainInfoResult)
    requires WellShaped(descs)
    modifies out
    ensures out.sent == old(out.sent) + BlockchainMetrics(descs, info)
  {
    ghost var base := out.sent;
    var c := info.chain;
    SendSample(out, descs[0], CounterValue, info.blocks as real, [c], base, descs, info, 0);
    SendSample(out, descs[1], CounterValue, info.headers as real, [c], base, descs, info, 1);
    SendSample(out, descs[2], GaugeValue, info.difficulty, [c], base, descs, info, 2);
    SendSample(out, descs[3], GaugeValue, info.medianTime as real, [c], base, descs, info, 3);
    SendSample(out, descs[4], GaugeValue, info.verificationProgress, [c], base, descs, info, 4);
    if info.initialBlockDownload {
      SendSample(out, descs[5], UntypedValue, 1.0, [c], base, descs, info, 5);
    } else {
      SendSample(out, descs[5], UntypedValue, 0.0, [c], base, descs, info, 5);
    }
    SendSample(out, descs[6], GaugeValue, info.sizeOnDisk as real, [c], base, descs, info, 6);
    SendSample(out, descs[7], GaugeValue, info.pruneHeight as real, [c], base, descs, info, 7);
  }

  /** Eight descriptors, each with the single label name `chain`. */
  lemma DescriptorsShape()
    ensures WellShaped(BlockchainDescriptors)
    ensures forall k :: 0 <= k < 8 ==> BlockchainDescriptors[k].variableLabels == ["chain"]
  {
  }

  /** The `k`-th metric is the `k`-th descriptor with its value type and value, labelled with the chain. */
  lemma {:induction false} SamplesUpToTable(descs: seq<Desc>, info: GetBlockChainInfoResult, n: nat)
    requires WellShaped(descs) && n <= 8
    ensures |SamplesUpTo(descs, info, n)| == n
    ensures forall k :: 0 <= k < n ==>
      SamplesUpTo(descs, info, n)[k] == ConstMetric(descs[k], Kind(k), Field(info, k), [info.chain])
  {
    if n > 0 {
      SamplesUpToTable(descs, info, n - 1);
    }
  }

  /**
   * On success: one metric per descriptor, in descriptor order, each labelled
   * with the chain; blocks and headers are counters, the download flag is
   * untyped, the rest are gauges.
   */
  lemma BlockchainTable(info: GetBlockChainInfoResult)
    ensures |BlockchainMetrics(BlockchainDescriptors, info)| == 8
    ensures forall k :: 0 <= k < 8 ==>
      BlockchainMetrics(BlockchainDescriptors, info)[k]
        == ConstMetric(BlockchainDescriptors[k], Kind(k), Field(info, k), [info.chain])
  {
    DescriptorsShape();
    SamplesUpToTable(BlockchainDescriptors, info, 8);
  }

  /** The initial-block-download metric is 1 if and only if the node is in initial block download, and 0 otherwise. */
  lemma InitialBlockDownloadFlag(info: GetBlockChainInfoResult)
    ensures |BlockchainMetrics(BlockchainDescriptors, info)| == 8
    ensures BlockchainMetrics(BlockchainDescriptors, info)[5].ConstMetric?
    ensures BlockchainMetrics(BlockchainDescriptors, info)[5].value == 1.0 <==> info.initialBlockDownload
    ensures BlockchainMetrics(BlockchainDescriptors, info)[5].value == 0.0 <==> !info.initialBlockDownload
  {
    BlockchainTable(info);
  }

  /** The `pruned` field never reaches a metric, and no descriptor is about pruning being enabled. */
  lemma PrunedIgnored(info: GetBlockChainInfoResult, pruned: bool)
    ensures BlockchainMetrics(BlockchainDescriptors, info.(pruned := pruned)) == BlockchainMetrics(BlockchainDescriptors, info)
    ensures forall k :: 0 <= k < |BlockchainDescriptors| ==> BlockchainDescriptors[k].fqName != "bitcoind_blockchain_pruned"
  {
    BlockchainTable(info);
    BlockchainTable(info.(pruned := pruned));
  }

  /** Collect sends all eight metrics when the reply decodes, and nothing otherwise. */
  lemma CollectedCount(reply: Reply<GetBlockChainInfoResult>)
    ensures |Collected(reply)| == if reply.Decoded? then 8 else 0
  {
    if reply.Decoded? {
      BlockchainTable(reply.value);
    }
  }

  /** Everything Collect sends passes the registry's checks against what Describe sends. */
  lemma CollectedConsistent(reply: Reply<GetBlockChainInfoResult>)
    ensures forall m :: m in Collected(reply) ==> Consistent(m, BlockchainDescriptors)
  {
    if reply.Decoded? {
      var ms := Collected(reply);
      BlockchainTable(reply.value);
      forall i | 0 <= i < |ms| ensures Consistent(ms[i], BlockchainDescriptors) {
        assert ms[i].desc == BlockchainDescriptors[i];
      }
    }
  }
}
