/**
 Dispatch over the operations a strategy step may use. Each variant builds
 exactly one outbound message and changes no state.
 */
module Operations {
  import opened CosmWasmStd
  import opened Assets
  import opened Msg
  import LiquidityPool

  /** The contract the operation's message is addressed to. */
  function Target(op: StrategyStepOperation): Addr {
    match op
    case LiquidityPoolSwapOperation(config) => config.poolAddr
  }

  /** The message that performs `op` on `offer`, proceeds to `recipient`. */
  function CreateExecutionMessage(op: StrategyStepOperation, offer: Asset, recipient: Addr)
    : (r: Result<CosmosMsg>)
    ensures op.LiquidityPoolSwapOperation? ==>
              r == LiquidityPool.CreateExecutionMessage(op.msg, offer, recipient)
    ensures r.Ok?
    ensures r.value.WasmExecute? && r.value.contractAddr == Target(op)
  {
    match op
    case LiquidityPoolSwapOperation(config) =>
      LiquidityPool.CreateExecutionMessage(config, offer, recipient)
  }
}
