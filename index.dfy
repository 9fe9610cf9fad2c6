/** The getindexinfo collector (pkg/bitcoind/index.go). */
module Index {
  import opened Metrics
  import opened Channels
  import opened Ints
  import opened Rpc
  import opened GoMaps

  const IndexLabels: seq<string> := ["chain", "index"]

  /** `IndexDescriptors`, in declaration order: the synced flag, then the best block height. */
  const IndexDescriptors: seq<Desc> := [
    Desc("bitcoind_index_synced", "Whether the index is synced or not", IndexLabels),
    Desc("bitcoind_index_best_block_height", "Block height to which the index is synced", IndexLabels)
  ]

  /** The state of one index in a getindexinfo response. */
  datatype IndexInfo = IndexInfo(synced: bool, bestBlockHeight: Int64)

  /** `GetIndexInfoResponse`: index name to its state. */
  type GetIndexInfoResponse = map<string, IndexInfo>

  /** The shape of `IndexDescriptors` Collect relies on: two descriptors, each with two label names. */
  ghost predicate WellShaped(descs: seq<Desc>) {
    |descs| == 2 && |descs[0].variableLabels| == 2 && |descs[1].variableLabels| == 2
  }

  /**
   * The two metrics one iteration of the range loop sends for the index
   * `name`, as written: the height goes out under descriptor 0 as a counter,
   * then descriptor 1 reports 1 on both branches of the `Synced` test.
   */
  function EntryMetrics(descs: seq<Desc>, chain: string, name: string, props: IndexInfo): seq<Metric>
    requires |descs| == 2
  {
    [ DiscardError(NewConstMetric(descs[0], CounterValue, props.bestBlockHeight as real, [chain, name])),
      DiscardError(NewConstMetric(descs[1], UntypedValue, if props.synced then 1.0 else 1.0, [chain, name])) ]
  }

  /** The loop body as a function of the key and value it visits. */
  function EntryBody(descs: seq<Desc>, chain: string): (string, IndexInfo) -> seq<Metric>
    requires |descs| == 2
  {
    (name: string, props: IndexInfo) => EntryMetrics(descs, chain, name, props)
  }

  /** What the range loop over the response sends, visiting its keys in `order`. */
  function IndexMetrics(descs: seq<Desc>, chain: string, info: GetIndexInfoResponse, order: seq<string>): seq<Metric>
    requires |descs| == 2 && InDomain(order, info)
  {
    RangeConcat(info, order, EntryBody(descs, chain))
  }

  /** What Collect sends, given the getblockchaininfo and getindexinfo replies and the loop's key order. */
  function Collected(chain: Reply<GetBlockChainInfoResult>, reply: Reply<GetIndexInfoResponse>, order: seq<string>)
    : seq<Metric>
    requires reply.Decoded? ==> InDomain(order, reply.value)
  {
    if chain.Decoded? && reply.Decoded? then IndexMetrics(IndexDescriptors, chain.value.chain, reply.value, order) else []
  }

  /** `(*IndexCollector).Describe` */
  method Describe(out: Channel<Desc>)
    modifies out
    ensures out.sent == old(out.sent) + IndexDescriptors
  {
    SendEach(out, IndexDescriptors);
  }

  /**
   * `(*IndexCollector).Collect`, given the two RPC replies (the second one
   * failing either in the call or in `json.Unmarshal`) and the order in which
   * the range loop visits the response's keys.
   */
  method Collect(out: Channel<Metric>, chain: Reply<GetBlockChainInfoResult>, reply: Reply<GetIndexInfoResponse>,
                 order: seq<string>)
    requires reply.Decoded? ==> InDomain(order, reply.value)
    modifies out
    ensures out.sent == old(out.sent) + Collected(chain, reply, order)
  {
    if !chain.Decoded? {
      return;  // "RPC call getblockchaininfo failed" is logged
    }
    if reply.CallFailed? {
      return;  // "RPC call getindexinfo failed" is logged
    }
    if reply.DecodeFailed? {
      return;  // "Failed to decode getindexinfo response" is logged
    }
    DescriptorsShape();
    CollectEntries(out, IndexDescriptors, chain.value.chain, reply.value, order);
  }

  /** `for name, props := range info { ... }`, visiting the keys in `order`; `descs` is `IndexDescriptors`. */
  method CollectEntries(out: Channel<Metric>, descs: seq<Desc>, c: string, info: GetIndexInfoResponse, order: seq<string>)
    requires WellShaped(descs) && InDomain(order, info)
    modifies out
    ensures out.sent == old(out.sent) + IndexMetrics(descs, c, info, order)
  {
    for j := 0 to |order|
      invariant InDomain(order[..j], info)
      invariant out.sent == old(out.sent) + IndexMetrics(descs, c, info, order[..j])
    {
      ghost var before := out.sent;
      var name := order[j];
      var props := info[name];
      var metric := DiscardError(NewConstMetric(descs[0], CounterValue, props.bestBlockHeight as real, [c, name]));
      out.Send(metric);
      if props.synced {
        metric := DiscardError(NewConstMetric(descs[1], UntypedValue, 1.0, [c, name]));
      } else {
        metric := DiscardError(NewConstMetric(descs[1], UntypedValue, 1.0, [c, name]));
      }
      out.Send(metric);
      assert out.sent == before + EntryMetrics(descs, c, name, props);
      IndexSnoc(descs, c, info, order, j);
    }
    assert order[..|order|] == order;
  }

  /** One more key appends the two metrics of that key. */
  lemma IndexSnoc(descs: seq<Desc>, chain: string, info: GetIndexInfoResponse, order: seq<string>, j: nat)
    requires |descs| == 2 && InDomain(order, info) && j < |order|
    ensures InDomain(order[..j], info) && InDomain(order[..j + 1], info)
    ensures IndexMetrics(descs, chain, info, order[..j + 1])
         == IndexMetrics(descs, chain, info, order[..j]) + EntryMetrics(descs, chain, order[j], info[order[j]])
  {
    assert order[..j + 1][..j] == order[..j];
  }

  /** Two descriptors, each with the label names `chain` and `index`. */
  lemma DescriptorsShape()
    ensures WellShaped(IndexDescriptors)
    ensures IndexDescriptors[0].variableLabels == ["chain", "index"]
    ensures IndexDescriptors[1].variableLabels == ["chain", "index"]
  {
  }

  /**
   * As written, the `2i`-th metric is the height of the `i`-th visited index
   * as a counter under descriptor 0, and the `2i+1`-th is the constant 1,
   * untyped, under descriptor 1; both carry the labels chain and index name.
   */
  lemma {:induction false} IndexLayout(descs: seq<Desc>, chain: string, info: GetIndexInfoResponse, order: seq<string>)
    requires WellShaped(descs) && InDomain(order, info)
    ensures |IndexMetrics(descs, chain, info, order)| == 2 * |order|
    ensures forall i :: 0 <= i < |order| ==>
      && IndexMetrics(descs, chain, info, order)[2 * i]
           == ConstMetric(descs[0], CounterValue, info[order[i]].bestBlockHeight as real, [chain, order[i]])
      && IndexMetrics(descs, chain, info, order)[2 * i + 1]
           == ConstMetric(descs[1], UntypedValue, 1.0, [chain, order[i]])
    decreases |order|
  {
    if order != [] {
      var n := |order| - 1;
      assert InDomain(order[..n], info);
      IndexLayout(descs, chain, info, order[..n]);
      IndexSnoc(descs, chain, info, order, n);
      assert order[..n + 1] == order;
      forall i | 0 <= i < n ensures order[..n][i] == order[i] { }
    }
  }

  /**
   * The `i`-th visited index's two metrics sit together at positions `2i` and
   * `2i+1`, right after those of the indexes visited before it.
   */
  lemma EntryBlock(descs: seq<Desc>, chain: string, info: GetIndexInfoResponse, order: seq<string>, i: nat)
    requires |descs| == 2 && InDomain(order, info) && i < |order|
    ensures 2 * i + 2 <= |IndexMetrics(descs, chain, info, order)|
    ensures IndexMetrics(descs, chain, info, order)[2 * i .. 2 * i + 2]
         == EntryMetrics(descs, chain, order[i], info[order[i]])
  {
    var body := EntryBody(descs, chain);
    assert forall k, v :: |body(k, v)| == 2;
    RangeConcatBlock(info, order, body, i);
    RangeConcatUniform(info, order[..i], body, 2);
  }

  /**
   * Collect sends two metrics per index when both replies decode, so an
   * empty response sends nothing, and nothing at all when either RPC fails.
   */
  lemma CollectedCount(chain: Reply<GetBlockChainInfoResult>, reply: Reply<GetIndexInfoResponse>, order: seq<string>)
    requires reply.Decoded? ==> Enumerates(order, reply.value)
    ensures reply.Decoded? ==> InDomain(order, reply.value)
    ensures |Collected(chain, reply, order)| == if chain.Decoded? && reply.Decoded? then 2 * |reply.value| else 0
  {
    if reply.Decoded? {
      EnumerationInDomain(order, reply.value);
      EnumerationLength(order, reply.value);
      if chain.Decoded? {
        DescriptorsShape();
        IndexLayout(IndexDescriptors, chain.value.chain, reply.value, order);
      }
    }
  }

  /**
   * Every metric Collect sends is a real metric of a described descriptor,
   * labelled with the chain and the name of some index of the response.
   */
  lemma CollectedConsistent(chain: Reply<GetBlockChainInfoResult>, reply: Reply<GetIndexInfoResponse>, order: seq<string>)
    requires reply.Decoded? ==> InDomain(order, reply.value)
    ensures forall m :: m in Collected(chain, reply, order) ==>
      && Consistent(m, IndexDescriptors)
      && chain.Decoded? && reply.Decoded?
      && |m.labelValues| == 2 && m.labelValues[0] == chain.value.chain && m.labelValues[1] in reply.value
  {
    if chain.Decoded? && reply.Decoded? {
      var c, info := chain.value.chain, reply.value;
      DescriptorsShape();
      forall m | m in Collected(chain, reply, order)
        ensures Consistent(m, IndexDescriptors) && |m.labelValues| == 2
        ensures m.labelValues[0] == c && m.labelValues[1] in info
      {
        RangeConcatMember(info, order, EntryBody(IndexDescriptors, c), m);
        var i :| 0 <= i < |order| && m in EntryBody(IndexDescriptors, c)(order[i], info[order[i]]);
        assert m in EntryMetrics(IndexDescriptors, c, order[i], info[order[i]]);
      }
    }
  }

  /** The metrics Collect sends do not depend on the order the runtime picks, up to their order. */
  lemma CollectedPermutation(chain: Reply<GetBlockChainInfoResult>, reply: Reply<GetIndexInfoResponse>,
                             o1: seq<string>, o2: seq<string>)
    requires reply.Decoded? ==> Enumerates(o1, reply.value) && Enumerates(o2, reply.value)
    ensures reply.Decoded? ==> InDomain(o1, reply.value) && InDomain(o2, reply.value)
    ensures multiset(Collected(chain, reply, o1)) == multiset(Collected(chain, reply, o2))
  {
    if reply.Decoded? {
      EnumerationInDomain(o1, reply.value);
      EnumerationInDomain(o2, reply.value);
      if chain.Decoded? {
        EnumerationsPermute(o1, o2, reply.value);
        RangeConcatPermutation(reply.value, o1, o2, EntryBody(IndexDescriptors, chain.value.chain));
      }
    }
  }

  /**
   * As written, the metric under descriptor 1 is the same whether or not the
   * index is synced: an index that lags behind is reported as synced.
   */
  lemma SyncedIgnored(descs: seq<Desc>, chain: string, name: string, height: Int64)
    requires WellShaped(descs)
    ensures EntryMetrics(descs, chain, name, IndexInfo(false, height))
         == EntryMetrics(descs, chain, name, IndexInfo(true, height))
    ensures EntryMetrics(descs, chain, name, IndexInfo(false, height))[1]
         == ConstMetric(descs[1], UntypedValue, 1.0, [chain, name])
  {
  }

  /**
   * As written, an unsynced `txindex` at height 800000 on mainnet comes out
   * as `bitcoind_index_synced` = 800000 and `bitcoind_index_best_block_height` = 1.
   */
  lemma AsWrittenExample()
    ensures var info := map["txindex" := IndexInfo(false, 800000)];
      var ms := IndexMetrics(IndexDescriptors, "main", info, ["txindex"]);
      |ms| == 2 &&
      ms[0].ConstMetric? && ms[0].desc.fqName == "bitcoind_index_synced" && ms[0].value == 800000.0 &&
      ms[1].ConstMetric? && ms[1].desc.fqName == "bitcoind_index_best_block_height" && ms[1].value == 1.0
  {
    var info := map["txindex" := IndexInfo(false, 800000)];
    DescriptorsShape();
    IndexLayout(IndexDescriptors, "main", info, ["txindex"]);
  }

  /**
   * The evidently intended loop body: the height as a counter under the
   * best-block-height descriptor, then the synced flag as 1 or 0 under the
   * synced descriptor.
   */
  function IntendedEntryMetrics(descs: seq<Desc>, chain: string, name: string, props: IndexInfo): seq<Metric>
    requires |descs| == 2
  {
    [ DiscardError(NewConstMetric(descs[1], CounterValue, props.bestBlockHeight as real, [chain, name])),
      DiscardError(NewConstMetric(descs[0], UntypedValue, if props.synced then 1.0 else 0.0, [chain, name])) ]
  }

  /** The intended loop body as a function of the key and value it visits. */
  function IntendedEntryBody(descs: seq<Desc>, chain: string): (string, IndexInfo) -> seq<Metric>
    requires |descs| == 2
  {
    (name: string, props: IndexInfo) => IntendedEntryMetrics(descs, chain, name, props)
  }

  /** What the intended Collect sends, given the two replies and the loop's key order. */
  function IntendedCollected(chain: Reply<GetBlockChainInfoResult>, reply: Reply<GetIndexInfoResponse>, order: seq<string>)
    : seq<Metric>
    requires reply.Decoded? ==> InDomain(order, reply.value)
  {
    if chain.Decoded? && reply.Decoded? then
      RangeConcat(reply.value, order, IntendedEntryBody(IndexDescriptors, chain.value.chain))
    else []
  }

  /**
   * In the intended body every metric answers to its descriptor's name: the
   * synced metric is 1 exactly when the index is synced and 0 exactly when it
   * is not, and the best-block-height metric is a counter holding the height.
   */
  lemma IntendedEntryMeaning(chain: string, name: string, props: IndexInfo)
    ensures var ms := IntendedEntryMetrics(IndexDescriptors, chain, name, props);
      && |ms| == 2
      && ms[0] == ConstMetric(IndexDescriptors[1], CounterValue, props.bestBlockHeight as real, [chain, name])
      && ms[0].desc.fqName == "bitcoind_index_best_block_height"
      && ms[1].ConstMetric? && ms[1].desc.fqName == "bitcoind_index_synced" && ms[1].valueType == UntypedValue
      && (ms[1].value == 1.0 <==> props.synced)
      && (ms[1].value == 0.0 <==> !props.synced)
  {
    DescriptorsShape();
  }

  /** The intended Collect keeps the sample count of two per index and nothing on failure. */
  lemma IntendedCollectedCount(chain: Reply<GetBlockChainInfoResult>, reply: Reply<GetIndexInfoResponse>,
                               order: seq<string>)
    requires reply.Decoded? ==> Enumerates(order, reply.value)
    ensures reply.Decoded? ==> InDomain(order, reply.value)
    ensures |IntendedCollected(chain, reply, order)| == if chain.Decoded? && reply.Decoded? then 2 * |reply.value| else 0
  {
    if reply.Decoded? {
      EnumerationInDomain(order, reply.value);
      EnumerationLength(order, reply.value);
      if chain.Decoded? {
        RangeConcatUniform(reply.value, order, IntendedEntryBody(IndexDescriptors, chain.value.chain), 2);
      }
    }
  }

  /** Everything the intended Collect sends passes the registry's checks against what Describe sends. */
  lemma IntendedCollectedConsistent(chain: Reply<GetBlockChainInfoResult>, reply: Reply<GetIndexInfoResponse>,
                                    order: seq<string>)
    requires reply.Decoded? ==> InDomain(order, reply.value)
    ensures forall m :: m in IntendedCollected(chain, reply, order) ==> Consistent(m, IndexDescriptors)
  {
    if chain.Decoded? && reply.Decoded? {
      var c, info := chain.value.chain, reply.value;
      DescriptorsShape();
      forall m | m in IntendedCollected(chain, reply, order) ensures Consistent(m, IndexDescriptors) {
        RangeConcatMember(info, order, IntendedEntryBody(IndexDescriptors, c), m);
        var i :| 0 <= i < |order| && m in IntendedEntryBody(IndexDescriptors, c)(order[i], info[order[i]]);
        assert m in IntendedEntryMetrics(IndexDescriptors, c, order[i], info[order[i]]);
      }
    }
  }

  /** The intended and the written body differ exactly on unsynced indexes' flag, besides swapping descriptors. */
  lemma IntendedDiffers(chain: string, name: string, height: Int64)
    ensures IntendedEntryMetrics(IndexDescriptors, chain, name, IndexInfo(false, height))[1].value
         != EntryMetrics(IndexDescriptors, chain, name, IndexInfo(false, height))[1].value
    ensures IntendedEntryMetrics(IndexDescriptors, chain, name, IndexInfo(true, height))[1].value
         == EntryMetrics(IndexDescriptors, chain, name, IndexInfo(true, height))[1].value
  {
    DescriptorsShape();
  }
}
