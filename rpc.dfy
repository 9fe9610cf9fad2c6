/** What the collectors receive from the node's RPC interface. */
module Rpc {
  /**
   * The outcome of one RPC round trip: the decoded response, or a failure of
   * the call itself, or a failure to decode its result.
   */
  datatype Reply<T> = Decoded(value: T) | CallFailed | DecodeFailed

  /**
   * The fields of `btcjson.GetBlockChainInfoResult` that the collectors read.
   * Floating-point fields are reals; integer fields are unbounded here.
   */
  datatype GetBlockChainInfoResult = GetBlockChainInfoResult(
    chain: string,
    blocks: int,
    headers: int,
    difficulty: real,
    medianTime: int,
    verificationProgress: real,
    initialBlockDownload: bool,
    pruned: bool,
    pruneHeight: int,
    sizeOnDisk: int)
}
