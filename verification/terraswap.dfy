/**
 The pair-contract vocabulary of the Terraswap exchange, which the
 liquidity-pool operation speaks. Only the swap entry point is used.
 */
module Terraswap {
  import opened CosmWasmStd

  datatype AssetInfo = Token(contractAddr: string) | NativeToken(denom: string)

  datatype Asset = Asset(info: AssetInfo, amount: Uint128)

  /** The pair's `Swap` execute message; `to` names who receives the proceeds. */
  datatype ExecuteMsg = Swap(
    offerAsset: Asset,
    beliefPrice: Option<Decimal>,
    maxSpread: Option<Decimal>,
    to: Option<string>)
}
