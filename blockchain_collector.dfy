/**
 * The getblockchaininfo collector of pkg/bitcoind/blockchain_collector.go: it
 * keeps its descriptors in a map, checks every `NewConstMetric` error, and
 * describes itself by running one collection.
 */
module BlockchainByCollect {
  import opened Results
  import opened Metrics
  import opened Channels
  import opened Rpc

  const Height := "bitcoind:blockchain:height"
  const Headers := "bitcoind:blockchain:headers"
  const Difficulty := "bitcoind:blockchain:difficulty"
  const MedianTime := "bitcoind:blockchain:median_time"
  const VerificationProgress := "bitcoind:blockchain:verification_progress"
  const Initializing := "bitcoind:blockchain:initializing"
  const SizeOnDisk := "bitcoind:blockchain:size_on_disk"
  const Pruned := "bitcoind:blockchain:pruned"
  const PruneHeight := "bitcoind:blockchain:prune_height"

  /** The names, in the order Collect builds their metrics. */
  const EmissionOrder: seq<string> :=
    [Height, Headers, Difficulty, MedianTime, VerificationProgress, Initializing, SizeOnDisk, Pruned, PruneHeight]

  /** `descriptors`: each metric name mapped to its descriptor. */
  const descriptors: map<string, Desc> := map[
    Height := Desc(Height, "Height of the most-work fully-validated chain", ["chain"]),
    Headers := Desc(Headers, "Current number of headers validated", ["chain"]),
    Difficulty := Desc(Difficulty, "Current difficulty metric", ["chain"]),
    MedianTime := Desc(MedianTime, "Median time for the current best block", ["chain"]),
    VerificationProgress := Desc(VerificationProgress, "Estimate of verification progress on range [0..1]", ["chain"]),
    Initializing := Desc(Initializing, "Node is in Initial Block Download mode", ["chain"]),
    SizeOnDisk := Desc(SizeOnDisk, "Estimated size of the block and undo files on disk", ["chain"]),
    Pruned := Desc(Pruned, "Pruning is enabled", ["chain"]),
    PruneHeight := Desc(PruneHeight, "Lowest-height complete block stored if pruning is enabled", ["chain"])
  ]

  /** The value `initializing` holds when the metrics are built. */
  function InitializingValue(info: GetBlockChainInfoResult): real {
    if info.initialBlockDownload then 1.0 else 0.0
  }

  /** The value `pruned` holds when the metrics are built. */
  function PrunedValue(info: GetBlockChainInfoResult): real {
    if info.pruned then 1.0 else 0.0
  }

  /** The value type of the `k`-th metric in emission order: the height counts, the two flags are untyped. */
  function Kind(k: nat): ValueType {
    if k == 0 then CounterValue else if k == 5 || k == 7 then UntypedValue else GaugeValue
  }

  /** The value of the `k`-th metric in emission order. */
  function Field(info: GetBlockChainInfoResult, k: nat): real
    requires k < 9
  {
    match k
    case 0 => info.blocks as real
    case 1 => info.headers as real
    case 2 => info.difficulty
    case 3 => info.medianTime as real
    case 4 => info.verificationProgress
    case 5 => InitializingValue(info)
    case 6 => info.sizeOnDisk as real
    case 7 => PrunedValue(info)
    case 8 => info.pruneHeight as real
  }

  /** Every name Collect looks up is a key of `descs`. */
  ghost predicate WellKeyed(descs: map<string, Desc>) {
    forall k :: 0 <= k < |EmissionOrder| ==> EmissionOrder[k] in descs
  }

  /** Every descriptor Collect looks up takes one label name, as many as each attempt passes values. */
  ghost predicate OneLabel(descs: map<string, Desc>)
    requires WellKeyed(descs)
  {
    forall k :: 0 <= k < |EmissionOrder| ==> |descs[EmissionOrder[k]].variableLabels| == 1
  }

  /**
   * The `k`-th of the nine `NewConstMetric` attempts of one collection:
   * the descriptor filed under the `k`-th name, with its kind and value and
   * the chain as label value; `descs` is `descriptors`.
   */
  function Attempt(descs: map<string, Desc>, info: GetBlockChainInfoResult, k: nat): Result<Metric, MetricError>
    requires WellKeyed(descs) && k < 9
  {
    NewConstMetric(descs[EmissionOrder[k]], Kind(k), Field(info, k), [info.chain])
  }

  /** The metric the `k`-th attempt is meant to build. */
  function Expected(descs: map<string, Desc>, info: GetBlockChainInfoResult, k: nat): Metric
    requires WellKeyed(descs) && k < 9
  {
    ConstMetric(descs[EmissionOrder[k]], Kind(k), Field(info, k), [info.chain])
  }

  /** What one attempt puts on the channel: its metric if it succeeded. */
  function SentOne(attempt: Result<Metric, MetricError>): seq<Metric> {
    if attempt.Ok? then [attempt.value] else []
  }

  /** What one attempt appends to `errs`: its error if it failed. */
  function ErrorOne(attempt: Result<Metric, MetricError>): seq<MetricError> {
    if attempt.Err? then [attempt.error] else []
  }

  /** What the first `k` attempts of a collection put on the channel, in order. */
  function SentUpTo(descs: map<string, Desc>, info: GetBlockChainInfoResult, k: nat): seq<Metric>
    requires WellKeyed(descs) && k <= 9
  {
    if k == 0 then [] else SentUpTo(descs, info, k - 1) + SentOne(Attempt(descs, info, k - 1))
  }

  /** What the first `k` attempts of a collection append to `errs`, in order. */
  function ErrorsUpTo(descs: map<string, Desc>, info: GetBlockChainInfoResult, k: nat): seq<MetricError>
    requires WellKeyed(descs) && k <= 9
  {
    if k == 0 then [] else ErrorsUpTo(descs, info, k - 1) + ErrorOne(Attempt(descs, info, k - 1))
  }

  /** What Collect sends, given the getblockchaininfo reply. */
  function Collected(reply: Reply<GetBlockChainInfoResult>): seq<Metric> {
    DescriptorsKeyed();
    if reply.Decoded? then SentUpTo(descriptors, reply.value, 9) else []
  }

  /** What Collect appends to `errs`, given the getblockchaininfo reply. */
  function CollectErrors(reply: Reply<GetBlockChainInfoResult>): seq<MetricError> {
    DescriptorsKeyed();
    if reply.Decoded? then ErrorsUpTo(descriptors, reply.value, 9) else []
  }

  /** The descriptors of a sequence of real metrics, in order. */
  function DescsOf(ms: seq<Metric>): (ds: seq<Desc>)
    requires forall i :: 0 <= i < |ms| ==> ms[i].ConstMetric?
    ensures |ds| == |ms|
    ensures forall i :: 0 <= i < |ms| ==> ds[i] == ms[i].desc
    decreases |ms|
  {
    if ms == [] then [] else DescsOf(ms[..|ms| - 1]) + [ms[|ms| - 1].desc]
  }

  /**
   * What Describe sends: the descriptors of the metrics one collection sends,
   * `prometheus.DescribeByCollect`.
   */
  function Described(reply: Reply<GetBlockChainInfoResult>): seq<Desc> {
    CollectedAreMetrics(reply);
    DescsOf(Collected(reply))
  }

  /** Collect never sends a nil metric. */
  lemma CollectedAreMetrics(reply: Reply<GetBlockChainInfoResult>)
    ensures forall i :: 0 <= i < |Collected(reply)| ==> Collected(reply)[i].ConstMetric?
  {
    if reply.Decoded? {
      CollectedTable(reply.value);
    }
  }

  /**
   * `metric, err := NewConstMetric(desc, valueType, value, labelValues...)`
   * followed by `if err != nil { errs = append(errs, err) } else { ch <- metric }`,
   * the step Collect repeats for each of its nine metrics, here the `k`-th;
   * `base` is what the channel held before the collection started.
   */
  method SendOrRecord(ch: Channel<Metric>, desc: Desc, valueType: ValueType, value: real, labelValues: seq<string>,
                      errs: seq<MetricError>, ghost base: seq<Metric>, ghost descs: map<string, Desc>,
                      ghost info: GetBlockChainInfoResult, ghost k: nat)
    returns (errs': seq<MetricError>)
    requires WellKeyed(descs) && k < 9 && desc == descs[EmissionOrder[k]]
    requires valueType == Kind(k) && value == Field(info, k) && labelValues == [info.chain]
    requires ch.sent == base + SentUpTo(descs, info, k) && errs == ErrorsUpTo(descs, info, k)
    modifies ch
    ensures ch.sent == base + SentUpTo(descs, info, k + 1)
    ensures errs' == ErrorsUpTo(descs, info, k + 1)
  {
    var attempt := NewConstMetric(desc, valueType, value, labelValues);
    assert attempt == Attempt(descs, info, k);
    if attempt.Err? {
      errs' := errs + [attempt.error];
    } else {
      errs' := errs;
      ch.Send(attempt.value);
      assert ch.sent == base + (SentUpTo(descs, info, k) + [attempt.value]);
    }
  }

  /**
   * `(*BlockchainCollector).Collect`, given the getblockchaininfo reply. It
   * returns the errors collected in `errs` and whether it logs them.
   */
  method Collect(ch: Channel<Metric>, reply: Reply<GetBlockChainInfoResult>)
    returns (errs: seq<MetricError>, loggedBuildErrors: bool)
    modifies ch
    ensures ch.sent == old(ch.sent) + Collected(reply)
    ensures errs == CollectErrors(reply)
    ensures loggedBuildErrors <==> errs != []
  {
    if !reply.Decoded? {
      return [], false;  // "Unable to retreive blockchain info" is logged
    }
    DescriptorsKeyed();
    errs := CollectInfo(ch, descriptors, reply.value);
    loggedBuildErrors := errs != [];  // "Unable to build one or more blockchain metrics" is logged
  }

  /** The body of Collect once the reply is in; `descs` is `descriptors`, or any map holding the nine names. */
  method CollectInfo(ch: Channel<Metric>, descs: map<string, Desc>, info: GetBlockChainInfoResult)
    returns (errs: seq<MetricError>)
    requires WellKeyed(descs)
    modifies ch
    ensures ch.sent == old(ch.sent) + SentUpTo(descs, info, 9)
    ensures errs == ErrorsUpTo(descs, info, 9)
  {
    var initializing: real := 0.0;
    if info.initialBlockDownload {
      initializing := 1.0;
    }
    var pruned: real := 0.0;
    if info.pruned {
      pruned := 1.0;
    }
    ghost var base := ch.sent;
    errs := SendProgress(ch, descs, info, base);
    errs := SendStorage(ch, descs, info, initializing, pruned, errs, base);
  }

  /** Attempts 0 to 4 of Collect: height, headers, difficulty, median time and verification progress. */
  method SendProgress(ch: Channel<Metric>, descs: map<string, Desc>, info: GetBlockChainInfoResult, ghost base: seq<Metric>)
    returns (errs: seq<MetricError>)
    requires WellKeyed(descs) && ch.sent == base
    modifies ch
    ensures ch.sent == base + SentUpTo(descs, info, 5)
    ensures errs == ErrorsUpTo(descs, info, 5)
  {
    assert Height == EmissionOrder[0] && Headers == EmissionOrder[1] && Difficulty == EmissionOrder[2];
    assert MedianTime == EmissionOrder[3] && VerificationProgress == EmissionOrder[4];
    assert ch.sent == base + SentUpTo(descs, info, 0);
    var c := info.chain;
    errs := [];
    errs := SendOrRecord(ch, descs[Height], CounterValue, info.blocks as real, [c], errs, base, descs, info, 0);
    errs := SendOrRecord(ch, descs[Headers], GaugeValue, info.headers as real, [c], errs, base, descs, info, 1);
    errs := SendOrRecord(ch, descs[Difficulty], GaugeValue, info.difficulty, [c], errs, base, descs, info, 2);
    errs := SendOrRecord(ch, descs[MedianTime], GaugeValue, info.medianTime as real, [c], errs, base, descs, info, 3);
    errs := SendOrRecord(ch, descs[VerificationProgress], GaugeValue, info.verificationProgress, [c], errs, base, descs, info, 4);
  }

  /** Attempts 5 to 8 of Collect: the initializing flag, size on disk, the pruned flag and prune height. */
  method SendStorage(ch: Channel<Metric>, descs: map<string, Desc>, info: GetBlockChainInfoResult,
                     initializing: real, pruned: real, errs: seq<MetricError>, ghost base: seq<Metric>)
    returns (errs': seq<MetricError>)
    requires WellKeyed(descs) && initializing == InitializingValue(info) && pruned == PrunedValue(info)
    requires ch.sent == base + SentUpTo(descs, info, 5) && errs == ErrorsUpTo(descs, info, 5)
    modifies ch
    ensures ch.sent == base + SentUpTo(descs, info, 9)
    ensures errs' == ErrorsUpTo(descs, info, 9)
  {
    assert Initializing == EmissionOrder[5] && SizeOnDisk == EmissionOrder[6];
    assert Pruned == EmissionOrder[7] && PruneHeight == EmissionOrder[8];
    var c := info.chain;
    errs' := SendOrRecord(ch, descs[Initializing], UntypedValue, initializing, [c], errs, base, descs, info, 5);
    errs' := SendOrRecord(ch, descs[SizeOnDisk], GaugeValue, info.sizeOnDisk as real, [c], errs', base, descs, info, 6);
    errs' := SendOrRecord(ch, descs[Pruned], UntypedValue, pruned, [c], errs', base, descs, info, 7);
    errs' := SendOrRecord(ch, descs[PruneHeight], GaugeValue, info.pruneHeight as real, [c], errs', base, descs, info, 8);
  }

  /** `Describe`, through `prometheus.DescribeByCollect`: it runs one collection and sends each metric's descriptor. */
  method Describe(ch: Channel<Desc>, reply: Reply<GetBlockChainInfoResult>)
    modifies ch
    ensures ch.sent == old(ch.sent) + Described(reply)
  {
    var ms := CollectAll(reply);
    SendDescs(ch, ms);
  }

  /** The collection `DescribeByCollect` runs on a channel of its own, returning what it received. */
  method CollectAll(reply: Reply<GetBlockChainInfoResult>) returns (ms: seq<Metric>)
    ensures ms == Collected(reply)
    ensures forall i :: 0 <= i < |ms| ==> ms[i].ConstMetric?
  {
    var metrics := new Channel<Metric>();
    var errs, loggedBuildErrors := Collect(metrics, reply);
    CollectedAreMetrics(reply);
    ms := metrics.sent;
  }

  /** The loop of `DescribeByCollect` that forwards the descriptor of every collected metric. */
  method SendDescs(ch: Channel<Desc>, ms: seq<Metric>)
    requires forall i :: 0 <= i < |ms| ==> ms[i].ConstMetric?
    modifies ch
    ensures ch.sent == old(ch.sent) + DescsOf(ms)
  {
    for i := 0 to |ms|
      invariant ch.sent == old(ch.sent) + DescsOf(ms[..i])
    {
      assert ms[..i + 1][..i] == ms[..i];
      ch.Send(ms[i].desc);
    }
    assert ms[..|ms|] == ms;
  }

  /** The map's keys are exactly the nine names Collect looks up. */
  lemma DescriptorsKeys()
    ensures descriptors.Keys == {Height, Headers, Difficulty, MedianTime, VerificationProgress, Initializing, SizeOnDisk, Pruned, PruneHeight}
  {
  }

  /** The nine names are pairwise different, so no metric shadows another in the map. */
  lemma NamesDistinct()
    ensures forall i, j :: 0 <= i < j < |EmissionOrder| ==> EmissionOrder[i] != EmissionOrder[j]
  {
  }

  /** Each descriptor is filed under its own name and takes the one label `chain`. */
  lemma DescriptorsNamed()
    ensures forall k :: 0 <= k < |EmissionOrder| ==>
      EmissionOrder[k] in descriptors &&
      descriptors[EmissionOrder[k]].fqName == EmissionOrder[k] &&
      descriptors[EmissionOrder[k]].variableLabels == ["chain"]
  {
  }

  /** `descriptors` has the shape Collect relies on. */
  lemma DescriptorsKeyed()
    ensures WellKeyed(descriptors) && OneLabel(descriptors)
  {
    DescriptorsNamed();
  }

  /** Each of the first `k` attempts is sent or recorded as an error, never both and never neither. */
  lemma {:induction false} SentPlusErrors(descs: map<string, Desc>, info: GetBlockChainInfoResult, k: nat)
    requires WellKeyed(descs) && k <= 9
    ensures |SentUpTo(descs, info, k)| + |ErrorsUpTo(descs, info, k)| == k
  {
    if k > 0 {
      SentPlusErrors(descs, info, k - 1);
    }
  }

  /**
   * The label check never fires here: every descriptor takes one label and
   * every attempt passes one, so the `k`-th attempt yields the metric of the table.
   */
  lemma AttemptSucceeds(descs: map<string, Desc>, info: GetBlockChainInfoResult, k: nat)
    requires WellKeyed(descs) && OneLabel(descs) && k < 9
    ensures Attempt(descs, info, k) == Ok(Expected(descs, info, k))
  {
  }

  /** As every attempt succeeds, each of the first `k` is sent and none is recorded. */
  lemma {:induction false} AllOkSent(descs: map<string, Desc>, info: GetBlockChainInfoResult, k: nat)
    requires WellKeyed(descs) && OneLabel(descs) && k <= 9
    ensures |SentUpTo(descs, info, k)| == k
    ensures ErrorsUpTo(descs, info, k) == []
  {
    if k > 0 {
      AllOkSent(descs, info, k - 1);
      AttemptSucceeds(descs, info, k - 1);
    }
  }

  /** As every attempt succeeds, the first `k` of them are sent in order. */
  lemma {:induction false} AllOkTable(descs: map<string, Desc>, info: GetBlockChainInfoResult, k: nat)
    requires WellKeyed(descs) && OneLabel(descs) && k <= 9
    ensures |SentUpTo(descs, info, k)| == k
    ensures forall i :: 0 <= i < k ==> SentUpTo(descs, info, k)[i] == Expected(descs, info, i)
  {
    if k > 0 {
      AllOkTable(descs, info, k - 1);
      AttemptSucceeds(descs, info, k - 1);
      var prefix, e := SentUpTo(descs, info, k - 1), Expected(descs, info, k - 1);
      assert SentUpTo(descs, info, k) == prefix + [e];
      forall i | 0 <= i < k ensures SentUpTo(descs, info, k)[i] == Expected(descs, info, i) {
        if i < k - 1 {
          assert (prefix + [e])[i] == prefix[i];
        }
      }
    }
  }

  /**
   * On success Collect sends nine metrics, in the fixed order height, headers,
   * difficulty, median_time, verification_progress, initializing,
   * size_on_disk, pruned, prune_height, each labelled with the chain.
   */
  lemma CollectedTable(info: GetBlockChainInfoResult)
    ensures |Collected(Decoded(info))| == 9
    ensures forall k :: 0 <= k < 9 ==>
      Collected(Decoded(info))[k] == ConstMetric(descriptors[EmissionOrder[k]], Kind(k), Field(info, k), [info.chain])
  {
    DescriptorsKeyed();
    AllOkTable(descriptors, info, 9);
  }

  /**
   * `initializing` is 1 if and only if the node is in initial block download,
   * `pruned` is 1 if and only if pruning is enabled; both are 0 otherwise.
   */
  lemma Flags(info: GetBlockChainInfoResult)
    ensures |Collected(Decoded(info))| == 9
    ensures Collected(Decoded(info))[5]
      == ConstMetric(descriptors[Initializing], UntypedValue, if info.initialBlockDownload then 1.0 else 0.0, [info.chain])
    ensures Collected(Decoded(info))[7]
      == ConstMetric(descriptors[Pruned], UntypedValue, if info.pruned then 1.0 else 0.0, [info.chain])
  {
    CollectedTable(info);
  }

  /**
   * Sent metrics plus recorded errors make nine attempts on success and none
   * on failure; `errs` always stays empty, so the build error is never logged.
   */
  lemma CollectAccounting(reply: Reply<GetBlockChainInfoResult>)
    ensures |Collected(reply)| + |CollectErrors(reply)| == if reply.Decoded? then 9 else 0
    ensures CollectErrors(reply) == []
  {
    if reply.Decoded? {
      DescriptorsKeyed();
      SentPlusErrors(descriptors, reply.value, 9);
      AllOkSent(descriptors, reply.value, 9);
    }
  }

  /**
   * Describe lists the descriptors of the nine metrics in emission order when
   * the RPC succeeds at describe time, and nothing when it fails.
   */
  lemma DescribedTable(reply: Reply<GetBlockChainInfoResult>)
    ensures !reply.Decoded? ==> Described(reply) == []
    ensures reply.Decoded? ==> |Described(reply)| == 9
    ensures reply.Decoded? ==> forall k :: 0 <= k < 9 ==> Described(reply)[k] == descriptors[EmissionOrder[k]]
  {
    if reply.Decoded? {
      CollectedTable(reply.value);
    }
  }

  /**
   * Every metric Collect sends is a real metric whose descriptor Describe
   * lists, under the same reply, with matching label arity.
   */
  lemma CollectedConsistent(reply: Reply<GetBlockChainInfoResult>)
    ensures forall m :: m in Collected(reply) ==> Consistent(m, Described(reply))
  {
    if reply.Decoded? {
      CollectedTable(reply.value);
      DescribedTable(reply);
      DescriptorsNamed();
      forall m | m in Collected(reply) ensures Consistent(m, Described(reply)) {
        var k :| 0 <= k < 9 && Collected(reply)[k] == m;
        assert Described(reply)[k] == m.desc;
      }
    }
  }

  /**
   * Describe runs once, at registration, and Collect at every scrape, each with
   * a reply of its own. Once Describe has seen a decoded reply, everything any
   * later Collect sends is consistent with what Describe listed.
   */
  lemma CollectedConsistentAcross(described: Reply<GetBlockChainInfoResult>, collected: Reply<GetBlockChainInfoResult>)
    requires described.Decoded?
    ensures forall m :: m in Collected(collected) ==> Consistent(m, Described(described))
  {
    DescribedTable(described);
    if collected.Decoded? {
      CollectedTable(collected.value);
      DescriptorsNamed();
      forall m | m in Collected(collected) ensures Consistent(m, Described(described)) {
        var k :| 0 <= k < 9 && Collected(collected)[k] == m;
        assert Described(described)[k] == m.desc;
      }
    }
  }

  /**
   * If the RPC fails while Describe runs, the collector declares no descriptor,
   * so none of the nine metrics a later successful Collect sends is consistent
   * with what was described.
   */
  lemma DescribeFailureDeclaresNothing(described: Reply<GetBlockChainInfoResult>, info: GetBlockChainInfoResult)
    requires !described.Decoded?
    ensures Described(described) == []
    ensures |Collected(Decoded(info))| == 9
    ensures forall m :: m in Collected(Decoded(info)) ==> !Consistent(m, Described(described))
  {
    DescribedTable(described);
    CollectedTable(info);
  }

  /**
   * The mainnet example: nine metrics, all labelled `chain="main"`, the
   * height as a counter, and the initializing and pruned flags both 0.
   */
  lemma MainnetExample()
    ensures var info := GetBlockChainInfoResult("main", 800000, 800000, 52000000000000.0, 1700000000, 0.9999, false, false, 0, 600000000000);
      var ms := Collected(Decoded(info));
      |ms| == 9 &&
      (forall k :: 0 <= k < 9 ==> ms[k].ConstMetric? && ms[k].labelValues == ["main"]) &&
      ms[0].valueType == CounterValue && ms[0].value == 800000.0 &&
      ms[5].value == 0.0 && ms[7].value == 0.0
  {
    var info := GetBlockChainInfoResult("main", 800000, 800000, 52000000000000.0, 1700000000, 0.9999, false, false, 0, 600000000000);
    CollectedTable(info);
  }
}
