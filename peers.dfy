/** The getpeerinfo collector (pkg/bitcoind/peers.go). */
module Peers {
  import opened Results
  import opened Metrics
  import opened Channels
  import opened Ints
  import opened Rpc
  import opened Strconv
  import opened GoMaps
  import opened Seqs

  /** The label names of every per-peer metric. */
  const PeerLabels: seq<string> := ["chain", "peer_id", "peer_addr", "peer_transport", "peer_version"]

  /** The label names of the two per-message metrics: the peer's, then the message type. */
  const MessageLabels: seq<string> := PeerLabels + ["msg_type"]

  /** `PeersDescriptors`, in declaration order. */
  const PeersDescriptors: seq<Desc> := [
    Desc("bitcoind_peer_last_send", "UNIX epoch time of the last message sent to the peer", PeerLabels),
    Desc("bitcoind_peer_last_recv", "UNIX epoch time of the last message received from the peer", PeerLabels),
    Desc("bitcoind_peer_last_transaction", "UNIX epoch time of the last valid transaction received from the peer", PeerLabels),
    Desc("bitcoind_peer_last_block", "UNIX epoch time of the last block received from the peer", PeerLabels),
    Desc("bitcoind_peer_bytes_sent", "Total bytes sent to the peer", PeerLabels),
    Desc("bitcoind_peer_bytes_recv", "Total bytes received from the peer", PeerLabels),
    Desc("bitcoind_peer_time_offset", "Time offset in seconds from the peer", PeerLabels),
    Desc("bitcoind_peer_ping_time", "Ping time to the peer", PeerLabels),
    Desc("bitcoind_peer_ping_min", "Minimum observed ping time to the peer", PeerLabels),
    Desc("bitcoind_peer_starting_height", "Starting height (block) of the peer", PeerLabels),
    Desc("bitcoind_peer_presynced_headers", "Current height of header pre-synchronization with this peer, or -1 if no low-work sync is in progress", PeerLabels),
    Desc("bitcoind_peer_synced_headers", "Last header we have in common with the peer", PeerLabels),
    Desc("bitcoind_peer_synced_blocks", "Last block we have in common with the peer", PeerLabels),
    Desc("bitcoind_peer_addr_processed", "Total number of addresses processed, excluding those dropped due to rate limiting", PeerLabels),
    Desc("bitcoind_peer_addr_rate_limited", "Total number number of addresses dropped due to rate limiting", PeerLabels),
    Desc("bitcoind_peer_bytes_sent_per_msg", "Total bytes sent to the peer aggregated by message type", MessageLabels),
    Desc("bitcoind_peer_bytes_recv_per_msg", "Total bytes received from the peer aggregated by message type", MessageLabels)
  ]

  /**
   * The shape of `PeersDescriptors` the collector relies on: fifteen
   * per-peer descriptors, then the two per-message ones with one more label.
   * The per-peer part of the model takes the table as a parameter `descs`
   * of this shape.
   */
  ghost predicate WellShaped(descs: seq<Desc>) {
    && |descs| == 17
    && (forall k :: 0 <= k < 15 ==> |descs[k].variableLabels| == 5)
    && |descs[15].variableLabels| == 6
    && |descs[16].variableLabels| == 6
  }

  /** `PeersDescriptors` has that shape: the per-peer labels, then the per-message ones. */
  lemma DescriptorsShape()
    ensures WellShaped(PeersDescriptors)
    ensures forall k :: 0 <= k < 15 ==> PeersDescriptors[k].variableLabels == PeerLabels
    ensures PeersDescriptors[15].variableLabels == MessageLabels && PeersDescriptors[16].variableLabels == MessageLabels
  {
  }

  /**
   * The fields of one decoded getpeerinfo entry that Collect reads: those of
   * `btcjson.GetPeerInfoResult` (integers unbounded, except the `int32` ID)
   * and those the extended `GetPeerInfoResult` adds (`int64`). A per-message
   * map absent from the response decodes as nil, which ranges like the empty map.
   */
  datatype GetPeerInfoResult = GetPeerInfoResult(
    id: Int32,
    addr: string,
    subVer: string,
    lastSend: int,
    lastRecv: int,
    bytesSent: int,
    bytesRecv: int,
    timeOffset: int,
    pingTime: real,
    startingHeight: int,
    network: string,
    lastTransaction: Int64,
    lastBlock: Int64,
    pingMin: real,
    preSyncedHeaders: Int64,
    syncedHeaders: Int64,
    syncedBlocks: Int64,
    addrProcessed: Int64,
    addrRateLimited: Int64,
    bytesRecvPerMessage: map<string, Int64>,
    bytesSentPerMessage: map<string, Int64>)

  /** The key orders Go's runtime picks for one peer's two per-message range loops. */
  datatype PeerOrder = PeerOrder(sent: seq<string>, recv: seq<string>)

  /** `order` visits only keys of the peer's two maps. */
  ghost predicate Fits(peer: GetPeerInfoResult, order: PeerOrder) {
    InDomain(order.sent, peer.bytesSentPerMessage) && InDomain(order.recv, peer.bytesRecvPerMessage)
  }

  /** `orders` visits only keys of the maps, one order per peer. */
  ghost predicate OrdersFit(peers: seq<GetPeerInfoResult>, orders: seq<PeerOrder>) {
    |orders| == |peers| && forall i :: 0 <= i < |peers| ==> Fits(peers[i], orders[i])
  }

  /** `orders` is one the runtime may pick: every key of every map exactly once. */
  ghost predicate OrdersEnumerate(peers: seq<GetPeerInfoResult>, orders: seq<PeerOrder>) {
    && |orders| == |peers|
    && forall i :: 0 <= i < |peers| ==>
         Enumerates(orders[i].sent, peers[i].bytesSentPerMessage) && Enumerates(orders[i].recv, peers[i].bytesRecvPerMessage)
  }


  /** `peerID := strconv.FormatInt(int64(peer.ID), 16)` */
  function PeerID(peer: GetPeerInfoResult): string {
    FormatHex(peer.id)
  }

  /** The label values of every per-peer metric, in the order of `PeerLabels`. */
  function PeerLabelValues(chain: string, peer: GetPeerInfoResult): seq<string> {
    [chain, PeerID(peer), peer.addr, peer.network, peer.subVer]
  }

  /** The value type of the `k`-th scalar metric: ten gauges, then five counters. */
  function ScalarKind(k: nat): ValueType {
    if k < 10 then GaugeValue else CounterValue
  }

  /** The field of `peer` the `k`-th scalar metric reports, as a float. */
  function ScalarField(peer: GetPeerInfoResult, k: nat): real
    requires k < 15
  {
    match k
    case 0 => peer.lastSend as real
    case 1 => peer.lastRecv as real
    case 2 => peer.lastTransaction as real
    case 3 => peer.lastBlock as real
    case 4 => peer.bytesSent as real
    case 5 => peer.bytesRecv as real
    case 6 => peer.timeOffset as real
    case 7 => peer.pingTime
    case 8 => peer.pingMin
    case 9 => peer.startingHeight as real
    case 10 => peer.preSyncedHeaders as real
    case 11 => peer.syncedHeaders as real
    case 12 => peer.syncedBlocks as real
    case 13 => peer.addrProcessed as real
    case 14 => peer.addrRateLimited as real
  }


  /** The `k`-th of the fifteen scalar metrics Collect sends for one peer, `descs` being `PeersDescriptors`. */
  function Scalar(descs: seq<Desc>, chain: string, peer: GetPeerInfoResult, k: nat): Metric
    requires |descs| == 17 && k < 15
  {
    DiscardError(NewConstMetric(descs[k], ScalarKind(k), ScalarField(peer, k), PeerLabelValues(chain, peer)))
  }

  /** The first `k` scalar metrics of one peer, in the order Collect sends them. */
  function ScalarsUpTo(descs: seq<Desc>, chain: string, peer: GetPeerInfoResult, k: nat): seq<Metric>
    requires |descs| == 17 && k <= 15
  {
    if k == 0 then [] else ScalarsUpTo(descs, chain, peer, k - 1) + [Scalar(descs, chain, peer, k - 1)]
  }

  /** The fifteen scalar metrics of one peer. */
  function ScalarMetrics(descs: seq<Desc>, chain: string, peer: GetPeerInfoResult): seq<Metric>
    requires |descs| == 17
  {
    ScalarsUpTo(descs, chain, peer, 15)
  }

  /** The metric one iteration of a per-message range loop sends for `msg` and its `count`. */
  function MessageMetric(desc: Desc, labels: seq<string>, msg: string, count: Int64): Metric {
    DiscardError(NewConstMetric(desc, CounterValue, count as real, labels + [msg]))
  }

  /** The body of a per-message range loop, as a function of the key and value it visits. */
  function MessageBody(desc: Desc, labels: seq<string>): (string, Int64) -> seq<Metric> {
    (msg: string, count: Int64) => [MessageMetric(desc, labels, msg, count)]
  }

  /** What one range loop over a per-message map sends, visiting its keys in `order`. */
  function MessageMetrics(desc: Desc, labels: seq<string>, counts: map<string, Int64>, order: seq<string>): seq<Metric>
    requires InDomain(order, counts)
  {
    RangeConcat(counts, order, MessageBody(desc, labels))
  }

  /** Everything Collect sends for one peer: the scalars, then bytes sent, then bytes received per message. */
  function PeerMetrics(descs: seq<Desc>, chain: string, peer: GetPeerInfoResult, order: PeerOrder): seq<Metric>
    requires |descs| == 17 && Fits(peer, order)
  {
    var labels := PeerLabelValues(chain, peer);
    ScalarMetrics(descs, chain, peer)
      + MessageMetrics(descs[15], labels, peer.bytesSentPerMessage, order.sent)
      + MessageMetrics(descs[16], labels, peer.bytesRecvPerMessage, order.recv)
  }

  /** Everything Collect sends for the peers, one after the other. */
  function PeersMetrics(descs: seq<Desc>, chain: string, peers: seq<GetPeerInfoResult>, orders: seq<PeerOrder>)
    : seq<Metric>
    requires |descs| == 17 && OrdersFit(peers, orders)
    decreases |peers|
  {
    if peers == [] then []
    else
      var n := |peers| - 1;
      OrdersFitPrefix(peers, orders, n);
      PeersMetrics(descs, chain, peers[..n], orders[..n]) + PeerMetrics(descs, chain, peers[n], orders[n])
  }

  /** A prefix of fitting orders fits the same prefix of the peers. */
  lemma OrdersFitPrefix(peers: seq<GetPeerInfoResult>, orders: seq<PeerOrder>, n: nat)
    requires OrdersFit(peers, orders) && n <= |peers|
    ensures OrdersFit(peers[..n], orders[..n])
  {
    forall i | 0 <= i < n ensures Fits(peers[..n][i], orders[..n][i]) {
      assert peers[..n][i] == peers[i] && orders[..n][i] == orders[i];
    }
  }

  /** One more peer appends that peer's metrics. */
  lemma PeersSnoc(descs: seq<Desc>, chain: string, peers: seq<GetPeerInfoResult>, orders: seq<PeerOrder>, i: nat)
    requires |descs| == 17 && OrdersFit(peers, orders) && i < |peers|
    ensures OrdersFit(peers[..i], orders[..i]) && OrdersFit(peers[..i + 1], orders[..i + 1])
    ensures PeersMetrics(descs, chain, peers[..i + 1], orders[..i + 1])
         == PeersMetrics(descs, chain, peers[..i], orders[..i]) + PeerMetrics(descs, chain, peers[i], orders[i])
  {
    OrdersFitPrefix(peers, orders, i);
    OrdersFitPrefix(peers, orders, i + 1);
    assert peers[..i + 1][..i] == peers[..i] && orders[..i + 1][..i] == orders[..i];
  }

  /**
   * What Collect sends, given the getblockchaininfo and getpeerinfo replies
   * and the key orders of the per-message loops.
   */
  function Collected(chain: Reply<GetBlockChainInfoResult>, reply: Reply<seq<GetPeerInfoResult>>, orders: seq<PeerOrder>)
    : seq<Metric>
    requires reply.Decoded? ==> OrdersFit(reply.value, orders)
  {
    if chain.Decoded? && reply.Decoded? then PeersMetrics(PeersDescriptors, chain.value.chain, reply.value, orders) else []
  }

  /** `(*PeersCollector).Describe` */
  method Describe(out: Channel<Desc>)
    modifies out
    ensures out.sent == old(out.sent) + PeersDescriptors
  {
    SendEach(out, PeersDescriptors);
  }

  /** `for msg, count := range counts { ...; out <- metric }`, visiting the keys in `order`. */
  method SendPerMessage(out: Channel<Metric>, desc: Desc, labels: seq<string>, counts: map<string, Int64>, order: seq<string>)
    requires InDomain(order, counts)
    modifies out
    ensures out.sent == old(out.sent) + MessageMetrics(desc, labels, counts, order)
  {
    for j := 0 to |order|
      invariant InDomain(order[..j], counts)
      invariant out.sent == old(out.sent) + MessageMetrics(desc, labels, counts, order[..j])
    {
      var msg := order[j];
      var count := counts[msg];
      var metric := DiscardError(NewConstMetric(desc, CounterValue, count as real, labels + [msg]));
      assert order[..j + 1][..j] == order[..j];
      out.Send(metric);
    }
    assert order[..|order|] == order;
  }

  /**
   * `metric, _ = NewConstMetric(desc, valueType, value, labelValues...); out <- metric`
   * for the `k`-th scalar metric of a peer; `base` is what the channel held
   * before the peer's first scalar.
   */
  method SendScalar(out: Channel<Metric>, desc: Desc, valueType: ValueType, value: real, labelValues: seq<string>,
                    ghost base: seq<Metric>, ghost descs: seq<Desc>, ghost chain: string, ghost peer: GetPeerInfoResult,
                    ghost k: nat)
    requires |descs| == 17 && k < 15 && desc == descs[k]
    requires valueType == ScalarKind(k) && value == ScalarField(peer, k) && labelValues == PeerLabelValues(chain, peer)
    requires out.sent == base + ScalarsUpTo(descs, chain, peer, k)
    modifies out
    ensures out.sent == base + ScalarsUpTo(descs, chain, peer, k + 1)
  {
    var metric := DiscardError(NewConstMetric(desc, valueType, value, labelValues));
    out.Send(metric);
  }

  /** Scalar metrics 0 to 3 of a peer: the four activity times (last send, receive, transaction, block). */
  method SendActivity(out: Channel<Metric>, descs: seq<Desc>, labels: seq<string>, peer: GetPeerInfoResult,
                      ghost base: seq<Metric>, ghost chain: string)
    requires WellShaped(descs) && labels == PeerLabelValues(chain, peer)
    requires out.sent == base + ScalarsUpTo(descs, chain, peer, 0)
    modifies out
    ensures out.sent == base + ScalarsUpTo(descs, chain, peer, 4)
  {
    SendScalar(out, descs[0], GaugeValue, peer.lastSend as real, labels, base, descs, chain, peer, 0);
    SendScalar(out, descs[1], GaugeValue, peer.lastRecv as real, labels, base, descs, chain, peer, 1);
    SendScalar(out, descs[2], GaugeValue, peer.lastTransaction as real, labels, base, descs, chain, peer, 2);
    SendScalar(out, descs[3], GaugeValue, peer.lastBlock as real, labels, base, descs, chain, peer, 3);
  }

  /** Scalar metrics 4 to 9 of a peer: traffic, clock offset, ping times and starting height. */
  method SendTraffic(out: Channel<Metric>, descs: seq<Desc>, labels: seq<string>, peer: GetPeerInfoResult,
                     ghost base: seq<Metric>, ghost chain: string)
    requires WellShaped(descs) && labels == PeerLabelValues(chain, peer)
    requires out.sent == base + ScalarsUpTo(descs, chain, peer, 4)
    modifies out
    ensures out.sent == base + ScalarsUpTo(descs, chain, peer, 10)
  {
    SendScalar(out, descs[4], GaugeValue, peer.bytesSent as real, labels, base, descs, chain, peer, 4);
    SendScalar(out, descs[5], GaugeValue, peer.bytesRecv as real, labels, base, descs, chain, peer, 5);
    SendScalar(out, descs[6], GaugeValue, peer.timeOffset as real, labels, base, descs, chain, peer, 6);
    SendScalar(out, descs[7], GaugeValue, peer.pingTime, labels, base, descs, chain, peer, 7);
    SendScalar(out, descs[8], GaugeValue, peer.pingMin, labels, base, descs, chain, peer, 8);
    SendScalar(out, descs[9], GaugeValue, peer.startingHeight as real, labels, base, descs, chain, peer, 9);
  }

  /** Scalar metrics 10 to 14 of a peer: the five header/block synchronisation and address counters. */
  method SendSync(out: Channel<Metric>, descs: seq<Desc>, labels: seq<string>, peer: GetPeerInfoResult,
                  ghost base: seq<Metric>, ghost chain: string)
    requires WellShaped(descs) && labels == PeerLabelValues(chain, peer)
    requires out.sent == base + ScalarsUpTo(descs, chain, peer, 10)
    modifies out
    ensures out.sent == base + ScalarsUpTo(descs, chain, peer, 15)
  {
    SendScalar(out, descs[10], CounterValue, peer.preSyncedHeaders as real, labels, base, descs, chain, peer, 10);
    SendScalar(out, descs[11], CounterValue, peer.syncedHeaders as real, labels, base, descs, chain, peer, 11);
    SendScalar(out, descs[12], CounterValue, peer.syncedBlocks as real, labels, base, descs, chain, peer, 12);
    SendScalar(out, descs[13], CounterValue, peer.addrProcessed as real, labels, base, descs, chain, peer, 13);
    SendScalar(out, descs[14], CounterValue, peer.addrRateLimited as real, labels, base, descs, chain, peer, 14);
  }

  /** The body of Collect's `for _, peer := range info` loop; `descs` is `PeersDescriptors`. */
  method CollectPeer(out: Channel<Metric>, descs: seq<Desc>, chain: string, peer: GetPeerInfoResult, order: PeerOrder)
    requires WellShaped(descs) && Fits(peer, order)
    modifies out
    ensures out.sent == old(out.sent) + PeerMetrics(descs, chain, peer, order)
  {
    var peerID := FormatHex(peer.id);
    var labels := [chain, peerID, peer.addr, peer.network, peer.subVer];
    ghost var base := out.sent;
    SendActivity(out, descs, labels, peer, base, chain);
    SendTraffic(out, descs, labels, peer, base, chain);
    SendSync(out, descs, labels, peer, base, chain);
    SendPerMessage(out, descs[15], labels, peer.bytesSentPerMessage, order.sent);
    SendPerMessage(out, descs[16], labels, peer.bytesRecvPerMessage, order.recv);
    AppendThree(base, ScalarMetrics(descs, chain, peer),
                MessageMetrics(descs[15], labels, peer.bytesSentPerMessage, order.sent),
                MessageMetrics(descs[16], labels, peer.bytesRecvPerMessage, order.recv));
  }

  /**
   * `(*PeersCollector).Collect`, given the two replies and the key orders
   * the runtime picks for the per-message loops.
   */
  method Collect(out: Channel<Metric>, chain: Reply<GetBlockChainInfoResult>, reply: Reply<seq<GetPeerInfoResult>>,
                 orders: seq<PeerOrder>)
    requires reply.Decoded? ==> OrdersFit(reply.value, orders)
    modifies out
    ensures out.sent == old(out.sent) + Collected(chain, reply, orders)
  {
    if !chain.Decoded? {
      return;  // "RPC call getblockchaininfo failed" is logged
    }
    if reply.CallFailed? {
      return;  // "RPC call getpeerinfo failed" is logged
    }
    if reply.DecodeFailed? {
      return;  // "Failed to decode getpeerinfo response" is logged
    }
    DescriptorsShape();
    CollectPeers(out, PeersDescriptors, chain.value.chain, reply.value, orders);
  }

  /** Collect's `for _, peer := range info` loop; `descs` is `PeersDescriptors`. */
  method CollectPeers(out: Channel<Metric>, descs: seq<Desc>, c: string, info: seq<GetPeerInfoResult>,
                      orders: seq<PeerOrder>)
    requires WellShaped(descs) && OrdersFit(info, orders)
    modifies out
    ensures out.sent == old(out.sent) + PeersMetrics(descs, c, info, orders)
  {
    OrdersFitPrefix(info, orders, 0);
    for i := 0 to |info|
      invariant OrdersFit(info[..i], orders[..i])
      invariant out.sent == old(out.sent) + PeersMetrics(descs, c, info[..i], orders[..i])
    {
      PeersSnoc(descs, c, info, orders, i);
      AppendAssoc(old(out.sent), PeersMetrics(descs, c, info[..i], orders[..i]), PeerMetrics(descs, c, info[i], orders[i]));
      CollectPeer(out, descs, c, info[i], orders[i]);
    }
    assert info[..|info|] == info && orders[..|orders|] == orders;
  }

  /** Every peer's maps are visited in an order of their own keys. */
  lemma EnumerateFits(peers: seq<GetPeerInfoResult>, orders: seq<PeerOrder>)
    requires OrdersEnumerate(peers, orders)
    ensures OrdersFit(peers, orders)
  {
    forall i | 0 <= i < |peers| ensures Fits(peers[i], orders[i]) {
      var m, o := peers[i].bytesSentPerMessage, orders[i].sent;
      assert forall j :: 0 <= j < |o| ==> o[j] in o;
      var m', o' := peers[i].bytesRecvPerMessage, orders[i].recv;
      assert forall j :: 0 <= j < |o'| ==> o'[j] in o';
    }
  }

  /** The `k`-th scalar metric is the `k`-th descriptor with its value type, its field and the peer's labels. */
  lemma {:induction false} ScalarsUpToTable(descs: seq<Desc>, chain: string, peer: GetPeerInfoResult, n: nat)
    requires WellShaped(descs) && n <= 15
    ensures |ScalarsUpTo(descs, chain, peer, n)| == n
    ensures forall k :: 0 <= k < n ==>
      ScalarsUpTo(descs, chain, peer, n)[k]
        == ConstMetric(descs[k], ScalarKind(k), ScalarField(peer, k), PeerLabelValues(chain, peer))
  {
    if n > 0 {
      ScalarsUpToTable(descs, chain, peer, n - 1);
    }
  }

  /**
   * The `j`-th metric of a per-message loop is the per-message descriptor,
   * a counter holding the count of the `j`-th key visited, labelled with it.
   */
  lemma {:induction false} MessageTable(desc: Desc, labels: seq<string>, counts: map<string, Int64>, order: seq<string>)
    requires InDomain(order, counts) && |desc.variableLabels| == |labels| + 1
    ensures |MessageMetrics(desc, labels, counts, order)| == |order|
    ensures forall j :: 0 <= j < |order| ==>
      MessageMetrics(desc, labels, counts, order)[j]
        == ConstMetric(desc, CounterValue, counts[order[j]] as real, labels + [order[j]])
  {
    if order != [] {
      var n := |order| - 1;
      assert InDomain(order[..n], counts);
      MessageTable(desc, labels, counts, order[..n]);
      assert forall j :: 0 <= j < n ==> order[..n][j] == order[j];
    }
  }

  /**
   * What Collect sends for one peer, position by position: the fifteen
   * scalars in declaration order, then one bytes-sent counter per visited
   * message type, then one bytes-received counter per visited message type.
   */
  lemma PeerLayout(descs: seq<Desc>, chain: string, peer: GetPeerInfoResult, order: PeerOrder)
    requires WellShaped(descs) && Fits(peer, order)
    ensures var ms, labels := PeerMetrics(descs, chain, peer, order), PeerLabelValues(chain, peer);
      && |ms| == 15 + |order.sent| + |order.recv|
      && (forall k :: 0 <= k < 15 ==>
            ms[k] == ConstMetric(descs[k], ScalarKind(k), ScalarField(peer, k), labels))
      && (forall j :: 0 <= j < |order.sent| ==>
            ms[15 + j] == ConstMetric(descs[15], CounterValue, peer.bytesSentPerMessage[order.sent[j]] as real,
                                      labels + [order.sent[j]]))
      && (forall j :: 0 <= j < |order.recv| ==>
            ms[15 + |order.sent| + j] == ConstMetric(descs[16], CounterValue, peer.bytesRecvPerMessage[order.recv[j]] as real,
                                                     labels + [order.recv[j]]))
  {
    var labels := PeerLabelValues(chain, peer);
    var scalars := ScalarMetrics(descs, chain, peer);
    var sent := MessageMetrics(descs[15], labels, peer.bytesSentPerMessage, order.sent);
    var recv := MessageMetrics(descs[16], labels, peer.bytesRecvPerMessage, order.recv);
    ScalarsUpToTable(descs, chain, peer, 15);
    MessageTable(descs[15], labels, peer.bytesSentPerMessage, order.sent);
    MessageTable(descs[16], labels, peer.bytesRecvPerMessage, order.recv);
    ThreeIndex(scalars, sent, recv);
  }

  /** A peer's maps visited in a runtime order: fifteen samples plus one per key of each map. */
  lemma PeerCount(descs: seq<Desc>, chain: string, peer: GetPeerInfoResult, order: PeerOrder)
    requires WellShaped(descs)
    requires Enumerates(order.sent, peer.bytesSentPerMessage) && Enumerates(order.recv, peer.bytesRecvPerMessage)
    ensures Fits(peer, order)
    ensures |PeerMetrics(descs, chain, peer, order)| == 15 + |peer.bytesSentPerMessage| + |peer.bytesRecvPerMessage|
  {
    EnumerateFits([peer], [order]);
    assert Fits([peer][0], [order][0]);
    PeerLayout(descs, chain, peer, order);
    EnumerationLength(order.sent, peer.bytesSentPerMessage);
    EnumerationLength(order.recv, peer.bytesRecvPerMessage);
  }

  /** The number of samples the peers yield: fifteen each, plus one per key of each per-message map. */
  function SampleCount(peers: seq<GetPeerInfoResult>): nat {
    if peers == [] then 0
    else
      var p := peers[|peers| - 1];
      SampleCount(peers[..|peers| - 1]) + 15 + |p.bytesSentPerMessage| + |p.bytesRecvPerMessage|
  }

  /** Collect sends `SampleCount` samples for the peers, whichever orders the runtime picks. */
  lemma {:induction false} PeersCount(descs: seq<Desc>, chain: string, peers: seq<GetPeerInfoResult>, orders: seq<PeerOrder>)
    requires WellShaped(descs) && OrdersEnumerate(peers, orders)
    ensures OrdersFit(peers, orders)
    ensures |PeersMetrics(descs, chain, peers, orders)| == SampleCount(peers)
    decreases |peers|
  {
    EnumerateFits(peers, orders);
    if peers != [] {
      var n := |peers| - 1;
      assert OrdersEnumerate(peers[..n], orders[..n]) by {
        forall i | 0 <= i < n ensures Enumerates(orders[..n][i].sent, peers[..n][i].bytesSentPerMessage)
                                   && Enumerates(orders[..n][i].recv, peers[..n][i].bytesRecvPerMessage) {
          assert orders[..n][i] == orders[i] && peers[..n][i] == peers[i];
        }
      }
      PeersCount(descs, chain, peers[..n], orders[..n]);
      PeerCount(descs, chain, peers[n], orders[n]);
    }
  }

  /** Every metric sent for a peer is a real metric of a described descriptor, with matching label arity. */
  lemma PeerConsistent(descs: seq<Desc>, chain: string, peer: GetPeerInfoResult, order: PeerOrder)
    requires WellShaped(descs) && Fits(peer, order)
    ensures forall m :: m in PeerMetrics(descs, chain, peer, order) ==> Consistent(m, descs)
  {
    var ms, labels := PeerMetrics(descs, chain, peer, order), PeerLabelValues(chain, peer);
    PeerLayout(descs, chain, peer, order);
    forall i | 0 <= i < |ms| ensures Consistent(ms[i], descs) {
      if i < 15 {
        assert ms[i] == ConstMetric(descs[i], ScalarKind(i), ScalarField(peer, i), labels);
      } else if i < 15 + |order.sent| {
        var msg := order.sent[i - 15];
        assert ms[i] == ConstMetric(descs[15], CounterValue, peer.bytesSentPerMessage[msg] as real, labels + [msg]);
      } else {
        var msg := order.recv[i - 15 - |order.sent|];
        assert ms[i] == ConstMetric(descs[16], CounterValue, peer.bytesRecvPerMessage[msg] as real, labels + [msg]);
      }
    }
  }

  /** Every metric sent for the peers is a real metric of a described descriptor, with matching label arity. */
  lemma {:induction false} PeersConsistent(descs: seq<Desc>, chain: string, peers: seq<GetPeerInfoResult>,
                                           orders: seq<PeerOrder>)
    requires WellShaped(descs) && OrdersFit(peers, orders)
    ensures forall m :: m in PeersMetrics(descs, chain, peers, orders) ==> Consistent(m, descs)
    decreases |peers|
  {
    if peers != [] {
      var n := |peers| - 1;
      OrdersFitPrefix(peers, orders, n);
      PeersConsistent(descs, chain, peers[..n], orders[..n]);
      PeerConsistent(descs, chain, peers[n], orders[n]);
    }
  }

  /** Everything Collect sends passes the registry's checks against what Describe sends. */
  lemma CollectedConsistent(chain: Reply<GetBlockChainInfoResult>, reply: Reply<seq<GetPeerInfoResult>>,
                            orders: seq<PeerOrder>)
    requires reply.Decoded? ==> OrdersFit(reply.value, orders)
    ensures forall m :: m in Collected(chain, reply, orders) ==> Consistent(m, PeersDescriptors)
  {
    if chain.Decoded? && reply.Decoded? {
      DescriptorsShape();
      PeersConsistent(PeersDescriptors, chain.value.chain, reply.value, orders);
    }
  }

  /** Orders that fit two lists of peers fit their concatenation. */
  lemma OrdersFitAppend(p1: seq<GetPeerInfoResult>, o1: seq<PeerOrder>, p2: seq<GetPeerInfoResult>, o2: seq<PeerOrder>)
    requires OrdersFit(p1, o1) && OrdersFit(p2, o2)
    ensures OrdersFit(p1 + p2, o1 + o2)
  {
    forall i | 0 <= i < |p1 + p2| ensures Fits((p1 + p2)[i], (o1 + o2)[i]) {
      if i >= |p1| {
        assert (p1 + p2)[i] == p2[i - |p1|] && (o1 + o2)[i] == o2[i - |o1|];
      }
    }
  }

  /** What Collect sends for a non-empty list of peers ends with the last peer's metrics. */
  lemma PeersUnfold(descs: seq<Desc>, chain: string, peers: seq<GetPeerInfoResult>, orders: seq<PeerOrder>, n: nat)
    requires |descs| == 17 && OrdersFit(peers, orders) && n + 1 == |peers|
    ensures OrdersFit(peers[..n], orders[..n]) && Fits(peers[n], orders[n])
    ensures PeersMetrics(descs, chain, peers, orders)
         == PeersMetrics(descs, chain, peers[..n], orders[..n]) + PeerMetrics(descs, chain, peers[n], orders[n])
  {
    OrdersFitPrefix(peers, orders, n);
  }

  /** Concatenating two lists of peers concatenates what Collect sends for them. */
  lemma {:induction false} PeersAppend(descs: seq<Desc>, chain: string, p1: seq<GetPeerInfoResult>, o1: seq<PeerOrder>,
                                       p2: seq<GetPeerInfoResult>, o2: seq<PeerOrder>)
    requires |descs| == 17 && OrdersFit(p1, o1) && OrdersFit(p2, o2)
    ensures OrdersFit(p1 + p2, o1 + o2)
    ensures PeersMetrics(descs, chain, p1 + p2, o1 + o2)
         == PeersMetrics(descs, chain, p1, o1) + PeersMetrics(descs, chain, p2, o2)
    decreases |p2|
  {
    OrdersFitAppend(p1, o1, p2, o2);
    if p2 == [] {
      assert p1 + p2 == p1 && o1 + o2 == o1;
    } else {
      var n := |p2| - 1;
      var p, o := p1 + p2, o1 + o2;
      var m := |p| - 1;
      var q, r := p2[..n], o2[..n];
      TakeAppend(p1, p2);
      TakeAppend(o1, o2);
      assert p[..m] == p1 + q && o[..m] == o1 + r;
      assert p[m] == p2[n] && o[m] == o2[n];
      PeersUnfold(descs, chain, p2, o2, n);
      PeersUnfold(descs, chain, p, o, m);
      PeersAppend(descs, chain, p1, o1, q, r);
      AppendAssoc(PeersMetrics(descs, chain, p1, o1), PeersMetrics(descs, chain, q, r),
                  PeerMetrics(descs, chain, p2[n], o2[n]));
    }
  }

  /** A single peer sends its own metrics. */
  lemma PeersSingle(descs: seq<Desc>, chain: string, peer: GetPeerInfoResult, order: PeerOrder)
    requires |descs| == 17 && Fits(peer, order)
    ensures OrdersFit([peer], [order])
    ensures PeersMetrics(descs, chain, [peer], [order]) == PeerMetrics(descs, chain, peer, order)
  {
    assert Fits([peer][0], [order][0]);
    assert [peer][..0] == [] && [order][..0] == [];
  }

  /** What Collect sends for the peers, split around the `i`-th peer. */
  lemma PeersSplit(descs: seq<Desc>, chain: string, peers: seq<GetPeerInfoResult>, orders: seq<PeerOrder>, i: nat)
    requires |descs| == 17 && OrdersFit(peers, orders) && i < |peers|
    ensures OrdersFit(peers[..i], orders[..i]) && Fits(peers[i], orders[i])
    ensures OrdersFit(peers[i + 1..], orders[i + 1..])
    ensures PeersMetrics(descs, chain, peers, orders)
         == PeersMetrics(descs, chain, peers[..i], orders[..i]) + PeerMetrics(descs, chain, peers[i], orders[i])
            + PeersMetrics(descs, chain, peers[i + 1..], orders[i + 1..])
  {
    var rest, orest := peers[i + 1..], orders[i + 1..];
    assert OrdersFit(rest, orest) by {
      forall j | 0 <= j < |rest| ensures Fits(rest[j], orest[j]) {
        assert rest[j] == peers[i + 1 + j] && orest[j] == orders[i + 1 + j];
      }
    }
    PeersSnoc(descs, chain, peers, orders, i);
    PeersAppend(descs, chain, peers[..i + 1], orders[..i + 1], rest, orest);
    TakeDrop(peers, i + 1);
    TakeDrop(orders, i + 1);
  }

  /** The metrics of the `i`-th peer form one contiguous block, right after those of the peers before it. */
  lemma PeersBlock(descs: seq<Desc>, chain: string, peers: seq<GetPeerInfoResult>, orders: seq<PeerOrder>, i: nat)
    requires |descs| == 17 && OrdersFit(peers, orders) && i < |peers|
    ensures OrdersFit(peers[..i], orders[..i]) && Fits(peers[i], orders[i])
    ensures var lo, block := |PeersMetrics(descs, chain, peers[..i], orders[..i])|, PeerMetrics(descs, chain, peers[i], orders[i]);
      && lo + |block| <= |PeersMetrics(descs, chain, peers, orders)|
      && PeersMetrics(descs, chain, peers, orders)[lo .. lo + |block|] == block
  {
    PeersSplit(descs, chain, peers, orders, i);
    MiddleSlice(PeersMetrics(descs, chain, peers[..i], orders[..i]), PeerMetrics(descs, chain, peers[i], orders[i]),
                PeersMetrics(descs, chain, peers[i + 1..], orders[i + 1..]));
  }

  /** Two runtime orders of one peer's maps send the same samples, possibly in another order. */
  lemma PeerPermutation(descs: seq<Desc>, chain: string, peer: GetPeerInfoResult, o1: PeerOrder, o2: PeerOrder)
    requires |descs| == 17
    requires Enumerates(o1.sent, peer.bytesSentPerMessage) && Enumerates(o1.recv, peer.bytesRecvPerMessage)
    requires Enumerates(o2.sent, peer.bytesSentPerMessage) && Enumerates(o2.recv, peer.bytesRecvPerMessage)
    ensures Fits(peer, o1) && Fits(peer, o2)
    ensures multiset(PeerMetrics(descs, chain, peer, o1)) == multiset(PeerMetrics(descs, chain, peer, o2))
  {
    EnumerateFits([peer, peer], [o1, o2]);
    assert Fits([peer, peer][0], [o1, o2][0]) && Fits([peer, peer][1], [o1, o2][1]);
    var labels := PeerLabelValues(chain, peer);
    EnumerationsPermute(o1.sent, o2.sent, peer.bytesSentPerMessage);
    EnumerationsPermute(o1.recv, o2.recv, peer.bytesRecvPerMessage);
    RangeConcatPermutation(peer.bytesSentPerMessage, o1.sent, o2.sent, MessageBody(descs[15], labels));
    RangeConcatPermutation(peer.bytesRecvPerMessage, o1.recv, o2.recv, MessageBody(descs[16], labels));
  }

  /** The samples Collect sends for the peers do not depend on the orders Go's runtime picks, as a multiset. */
  lemma {:induction false} PeersPermutation(descs: seq<Desc>, chain: string, peers: seq<GetPeerInfoResult>,
                                            o1: seq<PeerOrder>, o2: seq<PeerOrder>)
    requires |descs| == 17 && OrdersEnumerate(peers, o1) && OrdersEnumerate(peers, o2)
    ensures OrdersFit(peers, o1) && OrdersFit(peers, o2)
    ensures multiset(PeersMetrics(descs, chain, peers, o1)) == multiset(PeersMetrics(descs, chain, peers, o2))
    decreases |peers|
  {
    EnumerateFits(peers, o1);
    EnumerateFits(peers, o2);
    if peers != [] {
      var n := |peers| - 1;
      assert OrdersEnumerate(peers[..n], o1[..n]) && OrdersEnumerate(peers[..n], o2[..n]) by {
        forall i | 0 <= i < n
          ensures peers[..n][i] == peers[i] && o1[..n][i] == o1[i] && o2[..n][i] == o2[i]
        {
        }
      }
      PeersPermutation(descs, chain, peers[..n], o1[..n], o2[..n]);
      PeerPermutation(descs, chain, peers[n], o1[n], o2[n]);
    }
  }

  /** Reading a peer's `peer_id` label back in base 16 gives its ID, so distinct IDs give distinct labels. */
  lemma PeerIDRoundTrip(p: GetPeerInfoResult, q: GetPeerInfoResult)
    ensures ParseHex(PeerID(p)) == Some(p.id as Int64)
    ensures PeerID(p) == PeerID(q) ==> p.id == q.id
  {
    ParseFormat(p.id);
    FormatInjective(p.id, q.id);
  }

  /**
   * One peer with ID 7 that sent 1000 bytes of `inv` messages and received
   * nothing yields sixteen samples: the fifteen scalars, labelled with peer
   * ID "7", then the bytes-sent counter for "inv".
   */
  lemma SinglePeerSamples(descs: seq<Desc>, chain: string, peer: GetPeerInfoResult)
    requires WellShaped(descs)
    requires peer.id == 7 && peer.bytesSentPerMessage == map["inv" := 1000] && peer.bytesRecvPerMessage == map[]
    ensures OrdersFit([peer], [PeerOrder(["inv"], [])])
    ensures var ms := PeersMetrics(descs, chain, [peer], [PeerOrder(["inv"], [])]);
      && |ms| == 16
      && (forall k :: 0 <= k < 15 ==>
            ms[k].ConstMetric? && ms[k].labelValues == [chain, "7", peer.addr, peer.network, peer.subVer])
      && ms[15] == ConstMetric(descs[15], CounterValue, 1000.0, [chain, "7", peer.addr, peer.network, peer.subVer, "inv"])
  {
    var order := PeerOrder(["inv"], []);
    assert Fits(peer, order);
    PeersSingle(descs, chain, peer, order);
    FormatExamples();
    assert PeerLabelValues(chain, peer) == [chain, "7", peer.addr, peer.network, peer.subVer];
    PeerLayout(descs, chain, peer, order);
    assert order.sent[0] == "inv";
  }

  /** The same peer as Collect reports it, against the collector's own descriptors. */
  lemma SinglePeerExample(info: GetBlockChainInfoResult, peer: GetPeerInfoResult)
    requires peer.id == 7 && peer.bytesSentPerMessage == map["inv" := 1000] && peer.bytesRecvPerMessage == map[]
    ensures OrdersFit([peer], [PeerOrder(["inv"], [])])
    ensures var ms := Collected(Decoded(info), Decoded([peer]), [PeerOrder(["inv"], [])]);
      && |ms| == 16
      && ms[15] == ConstMetric(PeersDescriptors[15], CounterValue, 1000.0,
                               [info.chain, "7", peer.addr, peer.network, peer.subVer, "inv"])
  {
    DescriptorsShape();
    SinglePeerSamples(PeersDescriptors, info.chain, peer);
  }
}
