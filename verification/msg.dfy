/**
 The messages the contract consumes and produces. Serialisation is not
 modelled: a serialised payload is the datatype value it encodes.
 */
module Msg {
  import opened CosmWasmStd
  import opened Assets
  import Terraswap

  datatype InstantiateMsg = InstantiateMsg(comission: Int16)

  /** Configuration of a swap against one liquidity pool, stored by address. */
  datatype LiquidityPoolSwapMsg = LiquidityPoolSwapMsg(
    poolAddr: Addr,
    beliefPrice: Option<Decimal>,
    maxSpread: Option<Decimal>)

  /** Native-to-native market swap; it carries no configuration. */
  datatype MarketSwapMsg = MarketSwapMsg

  /** The operations a strategy step may use. */
  datatype StrategyStepOperation = LiquidityPoolSwapOperation(msg: LiquidityPoolSwapMsg)

  /** One hop: turn `fromAsset` into `toAsset` using `operation`. */
  datatype StrategyStep = StrategyStep(
    fromAsset: AssetInfo,
    toAsset: AssetInfo,
    operation: StrategyStepOperation)
  {
    function GetFromAsset(): AssetInfo {
      fromAsset
    }

    function GetToAsset(): AssetInfo {
      toAsset
    }
  }

  datatype ExecuteMsg =
    | ExecuteStrategy(steps: seq<StrategyStep>, minimumReceive: Uint128)
      /** Internal: run one hop, sending its proceeds to `to`. */
    | ExecuteStrategyStep(step: StrategyStep, to: string)
      /** Internal: check what `receiver` gained of `assetInfo` since the plan was built. */
    | FinalizeStrategy(
        receiver: string,
        assetInfo: AssetInfo,
        initialBalance: Uint128,
        minimumReceive: Uint128)

  /** A serialised execute payload: one of this contract's messages or a pair's. */
  datatype Binary = ContractMsg(execute: ExecuteMsg) | PairMsg(pair: Terraswap.ExecuteMsg)

  /** An outbound message for the host to dispatch after the current call. */
  datatype CosmosMsg =
    | WasmExecute(contractAddr: Addr, funds: seq<Coin>, msg: Binary)
      /** Chain market swap; proceeds stay with the sender. */
    | TerraSwap(offerCoin: Coin, askDenom: string)
      /** Chain market swap whose proceeds are sent to `toAddress`. */
    | TerraSwapSend(toAddress: Addr, offerCoin: Coin, askDenom: string)

  datatype AttributeValue = Text(text: string) | Amount(amount: Uint128) | AssetLabel(info: AssetInfo)

  datatype Attribute = Attribute(key: string, value: AttributeValue)

  datatype Response = Response(messages: seq<CosmosMsg>, attributes: seq<Attribute>)

  /** A message the contract addresses to itself, with no funds attached. */
  function SelfCall(contract: Addr, m: ExecuteMsg): CosmosMsg {
    WasmExecute(contract, [], ContractMsg(m))
  }

  predicate IsSelfCall(contract: Addr, m: CosmosMsg) {
    m.WasmExecute? && m.contractAddr == contract && m.funds == [] && m.msg.ContractMsg?
  }

  /** The contract message `m` carries, if it is a call of one of this contract's entry points. */
  function ContractCallOf(m: CosmosMsg): Option<ExecuteMsg> {
    if m.WasmExecute? && m.msg.ContractMsg? then Some(m.msg.execute) else None
  }
}
