/**
 Swapping one native currency for another through the chain's own market
 module. Token contracts are refused on either side.
 */
module Market {
  import opened CosmWasmStd
  import opened Assets
  import opened Msg

  /**
   The messages that swap `offer` into `askInfo`. With a forwarding target the
   proceeds are sent there and the offer is reduced by its transfer tax; without
   one the whole offer is swapped and the proceeds stay with the caller.
   */
  function CreateExecutionMessage(
    config: MarketSwapMsg, offer: Asset, askInfo: AssetInfo, to: Option<Addr>, tax: TaxOracle)
    : (r: Result<Response>)
    ensures offer.info.Token? ==> r == Err(CustomTokensNotSupported)
    ensures askInfo.Token? ==> r == Err(CustomTokensNotSupported)
    ensures offer.info.NativeToken? && askInfo.NativeToken? && to.Some? && offer.amount < tax(offer)
            ==> r == Err(SubOverflow(offer.amount, tax(offer)))
    ensures r.Ok? <==>
              && offer.info.NativeToken?
              && askInfo.NativeToken?
              && (to.Some? ==> tax(offer) <= offer.amount)
    ensures r.Ok? ==> |r.value.messages| == 1 && r.value.attributes == []
    ensures r.Ok? && to.Some? ==>
              && r.value.messages[0].TerraSwapSend?
              && r.value.messages[0].toAddress == to.value
              && r.value.messages[0].offerCoin.denom == offer.info.denom
              && r.value.messages[0].offerCoin.amount + tax(offer) == offer.amount
              && r.value.messages[0].askDenom == askInfo.denom
    ensures r.Ok? && to.None? ==>
              r.value.messages == [TerraSwap(Coin(offer.info.denom, offer.amount), askInfo.denom)]
  {
    if offer.info.Token? then
      Err(CustomTokensNotSupported)
    else if askInfo.Token? then
      Err(CustomTokensNotSupported)
    else
      var messages :- match offer.info
        case NativeToken(offerDenom) =>
          (match askInfo
           case NativeToken(askDenom) =>
             if to.Some? then
               var amount :- CheckedSub(offer.amount, tax(offer));
               Ok([TerraSwapSend(to.value, Coin(offerDenom, amount), askDenom)])
             else
               Ok([TerraSwap(Coin(offerDenom, offer.amount), askDenom)])
           case Token(_) => Ok([]))
        case Token(_) => Ok([]);
      Ok(Response(messages, []))
  }
}
