# bitcoind-exporter collectors, modelled in Dafny

This project models the translation layer of `bitcoind-exporter`. That layer
is five Prometheus collectors in package `bitcoind`. Each collector turns the
decoded reply of one `bitcoind` RPC into an ordered stream of metric samples
on a Go channel. Each one also has a `Describe` that lists its descriptors.

- `Peers` covers `getpeerinfo`. It sends 15 scalar samples per peer, one sample
  per key of each per-message byte map, and a hexadecimal peer ID label.
- `Mempool` covers `getmempoolinfo`. It sends ten samples, the last one the
  full-RBF flag.
- `Blockchain` covers `getblockchaininfo` in `blockchain.go`. It sends eight
  samples, one of them the initial-block-download flag.
- `BlockchainByCollect` is the second `getblockchaininfo` collector, in
  `blockchain_collector.go`. It looks descriptors up in a map and sends nine
  samples. Each build error is collected instead of sent, and `Describe` is
  derived from what one `Collect` sends.
- `Index` covers `getindexinfo`. It sends two samples per index.

Supporting modules:

- `Metrics`: descriptors, constant metrics, and `NewConstMetric` reduced to its
  label-count check. A nil metric stands for the one that
  `metric, _ := NewConstMetric(...)` leaves behind when the check fails.
- `Channels`: a channel as the sequence of values sent on it.
- `GoMaps`: a `range` loop over a Go map, visiting its keys in an order given
  as a parameter.
- `Strconv`: `strconv.FormatInt(i, 16)` and its inverse.
- `Rpc`: every reply as decoded, call failed or decode failed, and the
  `getblockchaininfo` record that all collectors read. The peer, mempool and
  index records are declared in their own collector's module.
- Helpers: `Results`, `Ints`, `Seqs`.

Each `Describe` and `Collect` is a module-level method that takes the output
`Channel` as a parameter; only `Send` is a method of `Channel` itself. Each is
proved to append exactly what a specification function gives for its inputs. Lemmas about
those functions then state what the collector promises:

- the number of samples;
- their order, kinds, values and labels;
- 0/1 rendering of booleans;
- all-or-nothing output when an RPC or the decode fails;
- independence from Go's map iteration order, up to permutation.

A central invariant, `Consistent`, is proved for every collector. Every sample
sent is a real metric, its descriptor is one `Describe` lists, and it carries
as many label values as that descriptor has label names. So the label-count
error of `NewConstMetric` that the collectors throw away never happens; that
check is the only part of `NewConstMetric` the model contains.

For `BlockchainByCollect` this comes with a condition. Its `Describe` runs once,
at registration, and makes its own `getblockchaininfo` call; `Collect` makes a
fresh call at every scrape. `BlockchainByCollect.CollectedConsistentAcross`
proves the invariant for any two replies, provided the describe-time reply
decoded. When the describe-time call fails, the collector declares no
descriptor at all, and none of the nine metrics a later successful `Collect`
sends is consistent with that empty list
(`BlockchainByCollect.DescribeFailureDeclaresNothing`).

`blockchain.go` and `blockchain_collector.go` both declare `BlockchainCollector`
and its `Describe` in the same package, so the package cannot be built with both.
They are modelled as independent modules.

In two places the model follows the code rather than what the descriptor names
suggest:

- `blockchain.go` has no pruned descriptor and sends no sample for `Pruned`.
- `index.go` sends the height under the "synced" descriptor and a constant 1
  under the "best block height" descriptor. See "## Findings".

## Model

| member | source | states |
|---|---|---|
| Channels.Channel.Send | pkg/bitcoind/peers.go:102 | a send appends exactly the value to what the channel has received |
| Channels.SendEach | pkg/bitcoind/peers.go:47-49 | ranging over a slice and sending each element appends the whole slice, in order |
| Strconv.HexDigit | pkg/bitcoind/peers.go:99 | a digit below 16 renders as a lower-case hex character |
| Strconv.FormatDigits | pkg/bitcoind/peers.go:99 | a magnitude renders as a non-empty string of lower-case hex digits with no leading zero, and as "0" for zero |
| Strconv.FormatHex | pkg/bitcoind/peers.go:99 | `FormatInt(i, 16)`: a '-' first exactly for negatives, then lower-case hex digits with no leading zero, and "0" for zero |
| Strconv.ParseFormat | pkg/bitcoind/peers.go:99 | parsing the formatted ID back in base 16 gives the ID |
| Strconv.FormatInjective | pkg/bitcoind/peers.go:99 | two IDs with the same label are the same ID |
| Strconv.FormatExamples | pkg/bitcoind/peers.go:99 | 7 gives "7", 255 gives "ff", -255 gives "-ff", 0 gives "0" |
| GoMaps.EnumerationLength | pkg/bitcoind/peers.go:146-149 | an order the runtime may pick has one entry per key of the map |
| GoMaps.EnumerationsPermute | pkg/bitcoind/peers.go:146-149 | any two iteration orders of one map are permutations of each other |
| GoMaps.RangeConcatAppend | pkg/bitcoind/index.go:77-88 | a range loop over the keys `a + b` sends what the loop over `a` sends, then what the loop over `b` sends |
| GoMaps.RangeConcatUniform | pkg/bitcoind/index.go:77-88 | a body sending `c` values per key sends `c` times the number of visited keys |
| GoMaps.RangeConcatMember | pkg/bitcoind/index.go:77-88 | a value is sent exactly when some visited key's body sends it |
| GoMaps.RangeConcatBlock | pkg/bitcoind/index.go:77-88 | the values the `i`-th visited key sends form one contiguous block, right after those of the keys visited before it |
| GoMaps.RangeConcatPermutation | pkg/bitcoind/index.go:77-88 | visiting the same keys in another order sends the same multiset of values |
| Peers.DescriptorsShape | pkg/bitcoind/peers.go:14-32 | the 17 descriptors take the 5 peer labels, and the last two add `msg_type` as a sixth |
| Peers.Describe | pkg/bitcoind/peers.go:46-50 | Describe sends exactly the 17 descriptors, in order |
| Peers.SendScalar | pkg/bitcoind/peers.go:101-102 | one scalar send extends the sent prefix of the peer's scalar samples by sample `k` |
| Peers.SendActivity | pkg/bitcoind/peers.go:101-111 | the last-send, last-recv, last-transaction and last-block samples go out in that order |
| Peers.SendTraffic | pkg/bitcoind/peers.go:113-129 | the byte-count, offset, ping and starting-height samples (4 to 9) go out in order |
| Peers.SendSync | pkg/bitcoind/peers.go:131-144 | the header-sync and address samples (10 to 14) go out in order |
| Peers.SendPerMessage | pkg/bitcoind/peers.go:146-154 | a per-message loop sends one counter per key visited, in the visiting order |
| Peers.CollectPeer | pkg/bitcoind/peers.go:99-154 | one loop iteration sends the peer's 15 scalars, then its sent-per-message samples, then its recv-per-message samples |
| Peers.CollectPeers | pkg/bitcoind/peers.go:98-155 | the peer loop sends the samples of each peer in turn |
| Peers.Collect | pkg/bitcoind/peers.go:77-156 | Collect sends nothing when either RPC or the decode fails, and otherwise the samples of every peer |
| Peers.EnumerateFits | pkg/bitcoind/peers.go:146-154 | orders the runtime may pick visit only keys of the peer's maps |
| Peers.ScalarsUpToTable | pkg/bitcoind/peers.go:101-144 | scalar `k` is descriptor `k` with kind Gauge for `k` < 10 and Counter otherwise, the matching field as value, and labels chain, hex ID, address, network, version |
| Peers.MessageTable | pkg/bitcoind/peers.go:146-154 | per-message sample `j` is a counter holding the map's entry for the `j`-th key, labelled with the peer labels plus that key |
| Peers.PeerLayout | pkg/bitcoind/peers.go:98-155 | a peer's samples are its 15 scalars, then one per sent-message key, then one per recv-message key, each with its descriptor, kind, value and labels |
| Peers.PeerCount | pkg/bitcoind/peers.go:98-155 | a peer gives 15 samples plus the sizes of its two per-message maps, so empty or nil maps add nothing |
| Peers.PeersCount | pkg/bitcoind/peers.go:98-155 | Collect sends the sum over peers of 15 plus the two map sizes, so no peers means no samples |
| Peers.PeerConsistent | pkg/bitcoind/peers.go:99-154 | every sample of a peer is a real metric of a listed descriptor with matching label arity |
| Peers.PeersConsistent | pkg/bitcoind/peers.go:98-155 | every sample of every peer is a real metric of a listed descriptor with matching label arity |
| Peers.CollectedConsistent | pkg/bitcoind/peers.go:77-156 | everything Collect sends is a real metric of a descriptor Describe sends, with matching label arity |
| Peers.PeersAppend | pkg/bitcoind/peers.go:98-155 | the samples for two lists of peers are the samples of the first list, then those of the second |
| Peers.PeersSingle | pkg/bitcoind/peers.go:98-155 | a list holding one peer sends exactly that peer's samples |
| Peers.PeersSplit | pkg/bitcoind/peers.go:98-155 | the samples of peers before `i` come first, then those of peer `i`, then those of the peers after it |
| Peers.PeersBlock | pkg/bitcoind/peers.go:98-155 | peer `i`'s samples form one contiguous block, right after all samples of earlier peers |
| Peers.PeerPermutation | pkg/bitcoind/peers.go:146-154 | one peer's samples are the same multiset whatever order its maps are visited in |
| Peers.PeersPermutation | pkg/bitcoind/peers.go:98-155 | all samples are the same multiset whatever orders the runtime picks for the maps |
| Peers.PeerIDRoundTrip | pkg/bitcoind/peers.go:99 | the peer-ID label parses back in base 16 to the ID, and distinct IDs give distinct labels |
| Peers.SinglePeerSamples | pkg/bitcoind/peers.go:98-155 | peer 7 with one sent-message key "inv" gives 16 samples labelled "7", the last one counting 1000 under `inv` |
| Peers.SinglePeerExample | pkg/bitcoind/peers.go:77-156 | the same peer through Collect gives 16 samples, the last one counting 1000 for `inv` |
| Mempool.Describe | pkg/bitcoind/mempool.go:38-42 | Describe sends exactly the 10 descriptors, in order |
| Mempool.SendSample | pkg/bitcoind/mempool.go:82-83 | one send extends the sent prefix of the mempool samples by sample `k` |
| Mempool.CollectInfo | pkg/bitcoind/mempool.go:82-114 | the ten sends go out in descriptor order |
| Mempool.Collect | pkg/bitcoind/mempool.go:61-115 | Collect sends nothing on either RPC or the decode failing, and otherwise the ten samples |
| Mempool.DescriptorsShape | pkg/bitcoind/mempool.go:13-24 | all ten descriptors take the single label `chain` |
| Mempool.SamplesUpToTable | pkg/bitcoind/mempool.go:82-114 | sample `k` is descriptor `k`, its kind, its field as value, and label `[chain]` |
| Mempool.MempoolTable | pkg/bitcoind/mempool.go:82-114 | ten samples: 0 to 8 are gauges of size, bytes, usage, total fee, max bytes, min fee, min relay fee, incremental relay fee and unbroadcast count; 9 is untyped, 1 or 0 by full RBF |
| Mempool.FullRbfFlag | pkg/bitcoind/mempool.go:109-114 | the full-RBF sample is 1 exactly when full RBF is on and 0 exactly when it is off |
| Mempool.LoadedIgnored | pkg/bitcoind/mempool.go:46 | the `Loaded` field changes no sample |
| Mempool.CollectedCount | pkg/bitcoind/mempool.go:61-115 | ten samples when both replies decode, otherwise none |
| Mempool.CollectedConsistent | pkg/bitcoind/mempool.go:61-115 | everything Collect sends is a real metric of a descriptor Describe sends, with matching label arity |
| Blockchain.Describe | pkg/bitcoind/blockchain.go:33-37 | Describe sends exactly the 8 descriptors, in order |
| Blockchain.SendSample | pkg/bitcoind/blockchain.go:47-48 | one send extends the sent prefix of the blockchain samples by sample `k` |
| Blockchain.CollectInfo | pkg/bitcoind/blockchain.go:47-73 | the eight sends go out in descriptor order, the download flag by its if |
| Blockchain.Collect | pkg/bitcoind/blockchain.go:40-74 | Collect sends nothing on RPC failure, and otherwise the eight samples |
| Blockchain.DescriptorsShape | pkg/bitcoind/blockchain.go:10-19 | all eight descriptors take the single label `chain` |
| Blockchain.SamplesUpToTable | pkg/bitcoind/blockchain.go:47-73 | sample `k` is descriptor `k`, its kind, its field as value, and label `[chain]` |
| Blockchain.BlockchainTable | pkg/bitcoind/blockchain.go:47-73 | eight samples in descriptor order: blocks and headers are counters, the download flag is untyped, the rest are gauges |
| Blockchain.InitialBlockDownloadFlag | pkg/bitcoind/blockchain.go:62-67 | the download sample is 1 exactly during initial block download and 0 exactly outside it |
| Blockchain.PrunedIgnored | pkg/bitcoind/blockchain.go:10-19 | no descriptor is a pruned one, and the `Pruned` field changes no sample |
| Blockchain.CollectedCount | pkg/bitcoind/blockchain.go:40-74 | eight samples when the reply decodes, otherwise none |
| Blockchain.CollectedConsistent | pkg/bitcoind/blockchain.go:40-74 | everything Collect sends is a real metric of a descriptor Describe sends, with matching label arity |
| BlockchainByCollect.DescsOf | pkg/bitcoind/blockchain_collector.go:16-18 | the descriptors of a list of metrics, one per metric and in order |
| BlockchainByCollect.CollectedAreMetrics | pkg/bitcoind/blockchain_collector.go:54-115 | Collect only ever sends real metrics |
| BlockchainByCollect.SendOrRecord | pkg/bitcoind/blockchain_collector.go:54-59 | one attempt either sends its metric or appends its error, extending the sent and error prefixes by attempt `k` |
| BlockchainByCollect.SendProgress | pkg/bitcoind/blockchain_collector.go:54-87 | attempts 0 to 4 (height to verification progress) in order |
| BlockchainByCollect.SendStorage | pkg/bitcoind/blockchain_collector.go:89-115 | attempts 5 to 8 (initializing to prune height) in order |
| BlockchainByCollect.CollectInfo | pkg/bitcoind/blockchain_collector.go:42-115 | the flags are derived, then the nine attempts send their metrics and record their errors in order |
| BlockchainByCollect.Collect | pkg/bitcoind/blockchain_collector.go:33-120 | Collect attempts nothing on RPC failure; it sends the successful attempts, keeps the failed ones' errors, and logs the build errors exactly when `errs` is non-empty (the separate RPC-failure log message is not modelled by that flag) |
| BlockchainByCollect.CollectAll | pkg/bitcoind/blockchain_collector.go:16-18 | the metrics one Collect sends, all real |
| BlockchainByCollect.SendDescs | pkg/bitcoind/blockchain_collector.go:16-18 | the descriptor of each collected metric is sent, in order |
| BlockchainByCollect.Describe | pkg/bitcoind/blockchain_collector.go:16-18 | Describe sends the descriptors of what one Collect sends |
| BlockchainByCollect.DescriptorsKeys | pkg/bitcoind/blockchain_collector.go:20-30 | the map holds exactly the nine names Collect looks up |
| BlockchainByCollect.NamesDistinct | pkg/bitcoind/blockchain_collector.go:20-30 | the nine names are pairwise different |
| BlockchainByCollect.DescriptorsNamed | pkg/bitcoind/blockchain_collector.go:20-30 | each descriptor is filed under its own name and takes the one label `chain` |
| BlockchainByCollect.DescriptorsKeyed | pkg/bitcoind/blockchain_collector.go:20-30 | every name Collect looks up is a key, and each of those descriptors takes one label |
| BlockchainByCollect.SentPlusErrors | pkg/bitcoind/blockchain_collector.go:52-115 | after `k` attempts, sent metrics plus recorded errors number `k` |
| BlockchainByCollect.AttemptSucceeds | pkg/bitcoind/blockchain_collector.go:54-115 | with one label per descriptor, each attempt builds its metric without error |
| BlockchainByCollect.AllOkSent | pkg/bitcoind/blockchain_collector.go:52-115 | with well-shaped descriptors, `k` attempts send `k` metrics and record no error |
| BlockchainByCollect.AllOkTable | pkg/bitcoind/blockchain_collector.go:54-115 | the `i`-th sent metric is attempt `i`'s: its descriptor, kind, value and label `[chain]` |
| BlockchainByCollect.CollectedTable | pkg/bitcoind/blockchain_collector.go:54-115 | nine samples in the order height, headers, difficulty, median_time, verification_progress, initializing, size_on_disk, pruned, prune_height; height is a counter, the two flags untyped, the rest gauges; all labelled `[chain]` |
| BlockchainByCollect.Flags | pkg/bitcoind/blockchain_collector.go:42-50 | the initializing sample is 1 or 0 by initial block download, the pruned sample 1 or 0 by pruning |
| BlockchainByCollect.CollectAccounting | pkg/bitcoind/blockchain_collector.go:52-119 | sent plus errors number 9 on success and 0 on failure; errors are always empty, so the build-error message is never logged |
| BlockchainByCollect.DescribedTable | pkg/bitcoind/blockchain_collector.go:16-18 | Describe lists the nine descriptors in emission order when the RPC succeeds, and nothing when it fails |
| BlockchainByCollect.CollectedConsistent | pkg/bitcoind/blockchain_collector.go:33-120 | everything Collect sends is a real metric of a descriptor Describe sends for the same reply, with matching label arity |
| BlockchainByCollect.CollectedConsistentAcross | pkg/bitcoind/blockchain_collector.go:16-18 | whatever reply a later Collect gets, everything it sends is consistent with what Describe listed, provided the describe-time reply decoded |
| BlockchainByCollect.DescribeFailureDeclaresNothing | pkg/bitcoind/blockchain_collector.go:16-18 | a failed describe-time RPC declares no descriptor, so none of the nine metrics of a later successful Collect is consistent with it |
| BlockchainByCollect.MainnetExample | pkg/bitcoind/blockchain_collector.go:54-115 | a mainnet reply at height 800000 gives nine samples labelled "main": height 800000 as a counter, and both flags 0 |
| Index.Describe | pkg/bitcoind/index.go:32-36 | Describe sends exactly the 2 descriptors, in order |
| Index.CollectEntries | pkg/bitcoind/index.go:77-88 | the loop sends each visited index's two samples in turn |
| Index.Collect | pkg/bitcoind/index.go:54-89 | Collect sends nothing when either RPC or the decode fails, and otherwise the loop's samples |
| Index.DescriptorsShape | pkg/bitcoind/index.go:15-18 | both descriptors take the labels chain and index |
| Index.IndexLayout | pkg/bitcoind/index.go:77-88 | per visited index, as written: the height as a counter under descriptor 0, then 1, untyped, under descriptor 1, both labelled chain and index name |
| Index.EntryBlock | pkg/bitcoind/index.go:77-88 | the `i`-th visited index's two samples sit together at positions `2i` and `2i+1`, right after those of the indexes visited before it |
| Index.CollectedCount | pkg/bitcoind/index.go:54-89 | two samples per index when both replies decode, so an empty map gives none; nothing on failure |
| Index.CollectedConsistent | pkg/bitcoind/index.go:54-89 | everything Collect sends is a real metric of a descriptor Describe sends, labelled with the chain and an index name of the reply |
| Index.CollectedPermutation | pkg/bitcoind/index.go:77-88 | the samples are the same multiset whatever order the runtime visits the indexes in |
| Index.SyncedIgnored | pkg/bitcoind/index.go:81-86 | as written, a synced and an unsynced index at the same height give identical samples, the second one being 1 |
| Index.AsWrittenExample | pkg/bitcoind/index.go:78-87 | as written, an unsynced `txindex` at 800000 reports `bitcoind_index_synced` 800000 and `bitcoind_index_best_block_height` 1 |
| Index.IntendedEntryMeaning | pkg/bitcoind/index.go:16-17 | corrected: the height is a counter under best_block_height, and synced is 1 exactly when synced and 0 exactly when not |
| Index.IntendedCollectedCount | pkg/bitcoind/index.go:77-88 | corrected: still two samples per index and none on failure |
| Index.IntendedCollectedConsistent | pkg/bitcoind/index.go:77-88 | corrected: everything sent is a real metric of a described descriptor with matching label arity |
| Index.IntendedDiffers | pkg/bitcoind/index.go:81-86 | the corrected and the written flag differ for every unsynced index and agree for every synced one |

## Left out

- `main.go`: flag parsing, logger set-up, the RPC client, the HTTP server,
  signals and exit codes are process plumbing over foreign libraries.
- The RPC calls and `json.Unmarshal`: they are I/O. Each reply is an input, as
  `Decoded(value)`, `CallFailed` or `DecodeFailed`.
- The JSON fields the collectors never read are not in the records.
- Logging: it is a side effect. It appears only as comments in the early
  returns, and as the `loggedBuildErrors` result of `BlockchainByCollect.Collect`.
- Floating point: values are `real`. This does not model rounding of the
  `float64(int64)` conversions above 2^53.
- Prometheus internals: only the label-count check of `NewConstMetric` is
  modelled. `DescribeByCollect` is modelled as "the descriptors of what one
  Collect sends".
- Channels: a send appends to a sequence. Blocking, concurrency and the
  registry goroutines are not modelled.
- Go map iteration order: it is random, so it is an input. Results are stated
  for every order and, up to permutation, shown not to depend on it.
- A nil per-message map is the empty map, which is how `range` treats it.
- `btcjson.MustRegisterCmd` (pkg/bitcoind/index.go:43-45): it registers the
  command with the library.
- The `New...Collector` constructors and collector structs: they only hold the
  RPC client and logger, which are left out.
- The descriptor tables are passed as parameters to the `CollectInfo`-style
  methods. `Collect` passes the package's own table. The `Collected`, `Table`,
  flag and consistency lemmas are stated over that table; the layout, count,
  permutation and accounting lemmas (`Peers.PeerLayout`, `Peers.PeersCount`,
  `Peers.PeersPermutation`, `Mempool.LoadedIgnored`,
  `BlockchainByCollect.AllOkTable`, `Index.IndexLayout` and the like) are
  stated over any table of the right shape, which includes the package's own.
  The Go code reads the package variables.
- Long runs of sends are split into helper methods of at most a few sends each
  (`Peers.SendActivity` and the like). This changes no order and no sample.

## Findings

| source | as written | input that shows it | evidently intended | confidence | as-written member | corrected member |
|---|---|---|---|---|---|---|
| pkg/bitcoind/index.go:78-84 | the height is sent as a counter under descriptor 0, `bitcoind_index_synced`, and the flag under descriptor 1, `bitcoind_index_best_block_height` | `{"txindex": {synced: false, best_block_height: 800000}}` gives `bitcoind_index_synced` = 800000 | the height under `bitcoind_index_best_block_height` and the flag under `bitcoind_index_synced`, as the help texts at index.go:16-17 say | not executed | Index.AsWrittenExample | Index.IntendedEntryMeaning |
| pkg/bitcoind/index.go:81-86 | both branches of `if props.Synced` send 1 | any unsynced index, e.g. `txindex` at height 800000, reports 1 | 1 when synced and 0 when not | not executed | Index.SyncedIgnored | Index.IntendedDiffers |
