/**
 Swapping through a Terraswap liquidity pool whose address is configured on
 the step: the offer is handed to the pool's `Swap` entry point unchanged.
 */
module LiquidityPool {
  import opened CosmWasmStd
  import opened Assets
  import opened Msg
  import Terraswap

  /** Re-expresses an asset in the pair contract's vocabulary. */
  function ToTerraswapAsset(asset: Asset): (r: Terraswap.Asset)
    ensures r.amount == asset.amount
    ensures r.info.Token? <==> asset.info.Token?
    ensures asset.info.Token? ==> r.info.contractAddr == asset.info.contractAddr
    ensures asset.info.NativeToken? ==> r.info.denom == asset.info.denom
  {
    match asset.info
    case Token(contractAddr) => Terraswap.Asset(Terraswap.Token(contractAddr), asset.amount)
    case NativeToken(denom) => Terraswap.Asset(Terraswap.NativeToken(denom), asset.amount)
  }

  /** The reverse reading of a pair-contract asset. */
  function FromTerraswapAsset(asset: Terraswap.Asset): (r: Asset)
    ensures r.amount == asset.amount
    ensures r.info.Token? <==> asset.info.Token?
  {
    match asset.info
    case Token(contractAddr) => Asset(Token(contractAddr), asset.amount)
    case NativeToken(denom) => Asset(NativeToken(denom), asset.amount)
  }

  /** The conversion loses nothing: reading it back gives the original asset. */
  lemma ConversionRoundTrip(asset: Asset)
    ensures FromTerraswapAsset(ToTerraswapAsset(asset)) == asset
  {
  }

  /** The conversion is onto: every pair-contract asset is the conversion of its read-back. */
  lemma ConversionOnto(asset: Terraswap.Asset)
    ensures ToTerraswapAsset(FromTerraswapAsset(asset)) == asset
  {
  }

  /** The pool swap described by `m`, or `None` when `m` is no swap to `pool`. */
  function PoolSwapOf(pool: Addr, m: CosmosMsg): Option<Terraswap.ExecuteMsg> {
    if m.WasmExecute? && m.contractAddr == pool && m.funds == [] && m.msg.PairMsg? then
      Some(m.msg.pair)
    else
      None
  }

  /**
   The message that swaps `offer` in the configured pool, proceeds to
   `recipient`. Pricing guards pass through; the amount is not tax-adjusted.
   */
  function CreateExecutionMessage(config: LiquidityPoolSwapMsg, offer: Asset, recipient: Addr)
    : (r: Result<CosmosMsg>)
    ensures r.Ok?
    ensures PoolSwapOf(config.poolAddr, r.value).Some?
    ensures var swap := PoolSwapOf(config.poolAddr, r.value).value;
      && FromTerraswapAsset(swap.offerAsset) == offer
      && swap.beliefPrice == config.beliefPrice
      && swap.maxSpread == config.maxSpread
      && swap.to == Some(recipient)
  {
    var swap := Terraswap.Swap(
      ToTerraswapAsset(offer), config.beliefPrice, config.maxSpread, Some(recipient));
    Ok(WasmExecute(config.poolAddr, [], PairMsg(swap)))
  }
}
