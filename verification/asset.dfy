/**
 The contract's own asset abstraction: a native currency named by its denom, or
 a token contract named by its address, and an amount of one of them.
 */
module Assets {
  import opened CosmWasmStd

  datatype AssetInfo = Token(contractAddr: Addr) | NativeToken(denom: string)

  datatype Asset = Asset(info: AssetInfo, amount: Uint128)

  /** Balance of an asset held by an address, as the chain reports it. */
  type Balances = (AssetInfo, Addr) -> Uint128

  /** Transfer tax the chain levies on sending an asset. */
  type TaxOracle = Asset -> Uint128

  /** Structural equality: same kind of asset and same identifying field. */
  predicate Equal(a: AssetInfo, b: AssetInfo)
    ensures Equal(a, b) <==> a == b
  {
    match (a, b)
    case (Token(x), Token(y)) => x == y
    case (NativeToken(x), NativeToken(y)) => x == y
    case _ => false
  }
}
