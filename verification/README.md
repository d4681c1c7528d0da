# Step-by-step strategy contract, modelled in Dafny

The `step-by-step` contract lets a caller run a **strategy**: an ordered list
of swap steps, executed one after another inside one atomic transaction, with
a minimum the caller must end up receiving. The contract does not run the swaps
itself. It plans them:

- `execute_strategy` turns the steps into one self-addressed
  `ExecuteStrategyStep` message per step. It then appends a `FinalizeStrategy`
  message that records the caller's current balance of the target asset.
- `execute_step`, called back by the contract itself, offers the contract's
  whole live balance of the step's input asset to the step's operation. Today
  the only operation is a swap in a configured Terraswap liquidity pool.
- `finalize_strategy`, also a self-call, subtracts the recorded balance from the
  caller's current one with checked subtraction. It fails when the gain is
  below the minimum.

A native-only market swap is also modelled. It refuses token contracts on
either side. When it forwards proceeds, it deducts the transfer tax from the
offer.

Everything is modelled as pure functions over immutable datatypes. Chain
queries are parameters:

- `Balances = (AssetInfo, Addr) -> Uint128` stands for both `query_balance`
  and `AssetInfo::query_pool`;
- `TaxOracle = Asset -> Uint128` stands for `compute_tax`.

Amounts are `Uint128`, a subset of `nat` below 2^128. The commission is an
`Int16`. Serialised payloads (`to_binary`) are the datatype values they encode.

Modules, following the source:

| module | file | models |
|---|---|---|
| `CosmWasmStd` | std.dfy | host-library types: `Uint128`, `Addr`, `Coin`, `Decimal`, `StdError`, `Result`, checked subtraction |
| `Terraswap` | terraswap.dfy | the pair contract's asset and `Swap` message |
| `Assets` | asset.dfy | `AssetInfo`, `Asset`, structural equality, the oracle types |
| `Msg` | msg.dfy | instantiate/execute messages, `StrategyStep` and its getters, operation configs, outbound `CosmosMsg`, `Response` |
| `LiquidityPool` | liquidity_pool.dfy | asset conversion and the pool swap message |
| `Market` | market.dfy | the native market swap |
| `Operations` | operations.dfy | dispatch over `StrategyStepOperation` |
| `Contract` | contract.dfy | `instantiate`, `execute`, `execute_strategy`, `execute_step`, `finalize_strategy` |
| `Host` | host.dfy | the host running the planned queue in order, used to state the end-to-end property |

The Dafny handler names differ from the Rust ones, because the Rust names are
already used as `ExecuteMsg` constructors:

- `execute_strategy` is `Contract.BuildPlan`;
- `execute_step` is `Contract.RunStep`;
- `finalize_strategy` is `Contract.Finalize`.

The getters `get_from_asset` and `get_to_asset` are `StrategyStep.GetFromAsset`
and `StrategyStep.GetToAsset`. Each returns its field unchanged, and the
handlers call them where the source does, except at contract.rs:177, whose
value the two-argument operation call does not take.

`asset.rs`, `querier.rs`, `state.rs` and `error.rs` are not part of this model.
`AssetInfo`, `Asset`, `State` and the error cases are declared here from how
`contract.rs` and the `msgs` files use them.

## Model

| member | source | states |
|---|---|---|
| `CosmWasmStd.CheckedSub` | contracts/step-by-step/src/contract.rs:203 | subtraction succeeds iff the subtrahend is at most the minuend, then adds back to it; otherwise it is an overflow error naming both operands |
| `Assets.Equal` | contracts/step-by-step/src/contract.rs:105-108 | asset equality used to detect a round trip holds iff both are the same kind of asset with the same denom or address |
| `LiquidityPool.ToTerraswapAsset` | contracts/step-by-step/src/msgs/liquidity_pool.rs:25-30 | conversion keeps the amount, maps a token to a token with the same address and a native coin to a native coin with the same denom |
| `LiquidityPool.ConversionRoundTrip` | contracts/step-by-step/src/msgs/liquidity_pool.rs:25-30 | converting an asset and reading it back gives the original asset |
| `LiquidityPool.ConversionOnto` | contracts/step-by-step/src/msgs/liquidity_pool.rs:25-30 | every pair-contract asset is the conversion of its read-back; with `LiquidityPool.ConversionRoundTrip` this makes the conversion a bijection |
| `LiquidityPool.CreateExecutionMessage` | contracts/step-by-step/src/msgs/liquidity_pool.rs:33-44 | never fails; emits an execute call to the stored pool address with no funds, whose swap offers exactly the input asset with no tax deduction, passes belief price and max spread through, and sends proceeds to the recipient |
| `Market.CreateExecutionMessage` | contracts/step-by-step/src/msgs/market.rs:14-65 | a token offer or ask fails with "custom tokens not supported"; otherwise it succeeds iff there is no forwarding target or the tax is at most the amount (else an overflow error); on success exactly one message: swap-and-send to the target of amount minus tax, or a plain swap of the whole amount, carrying both denoms unchanged |
| `Operations.CreateExecutionMessage` | contracts/step-by-step/src/operations.rs:12-23 | dispatch hands the same offer and recipient to the liquidity-pool variant and yields exactly one message, addressed to that operation's pool |
| `Contract.Instantiate` | contracts/step-by-step/src/contract.rs:28-44 | succeeds iff the commission is in [0, 100]; then the state is the sender as owner with that commission and no messages are emitted |
| `Contract.StepMessages` | contracts/step-by-step/src/contract.rs:120-138 | one self-call per step, in input order, no funds; the step in the final position routes to the receiver, every other to the contract |
| `Contract.BuildPlan` | contracts/step-by-step/src/contract.rs:92-154 | no steps fails; a round trip fails iff the contract's input balance is below the minimum; otherwise N+1 self-calls with no funds: the N steps in order, only the last routed to the sender, then a finalize call carrying the sender, the last step's target asset, the sender's balance of it at planning time and the minimum unchanged |
| `Contract.StepMessagesCarrySteps` | contracts/step-by-step/src/contract.rs:120-138 | the step calls built for a list of steps read back as exactly that list |
| `Contract.PlanCarriesSteps` | contracts/step-by-step/src/contract.rs:120-153 | the first N messages of a plan read back as exactly the requested steps |
| `Contract.PlanIgnoresIntermediateAssets` | contracts/step-by-step/src/contract.rs:104-118 | acceptance of a plan and its finalize message depend only on the first input asset, the last output asset and the step count, so unchained steps are not rejected |
| `Contract.RunStep` | contracts/step-by-step/src/contract.rs:156-184 | fails with an unauthorized-step error iff the sender is not the contract; otherwise emits exactly the operation's message for an offer of the contract's whole live balance of the step's input asset |
| `Contract.Finalize` | contracts/step-by-step/src/contract.rs:186-216 | fails for any sender but the contract; then fails with an overflow error if the balance fell below the snapshot, with a shortfall error naming the minimum and the gain if the gain is below the minimum, and succeeds with no messages iff the gain reaches the minimum |
| `Contract.Execute` | contracts/step-by-step/src/contract.rs:47-76 | a step or finalize message from anyone but the contract is refused as unauthorized; a step message from the contract always succeeds |
| `Host.StepCallsPassThrough` | contracts/step-by-step/src/contract.rs:156-184 | self-issued step calls never fail, so a queue of them followed by other self-calls succeeds or fails exactly as those other calls do |
| `Host.StrategyOutcome` | contracts/step-by-step/src/contract.rs:92-216 | running the plan's self-calls in order succeeds iff the sender's final target balance is at least the planning-time balance plus the minimum, whatever balances the steps saw; a failure is the finalize error |

## Behaviour worth noting

- A round-trip strategy, whose first input asset equals its last output asset,
  is refused at planning time when the contract's own balance of that asset is
  below `minimum_receive` (contract.rs:108-118). `Contract.BuildPlan` models
  that early failure.
- The pool swap goes straight to the stored pool address, with no funds and
  the untaxed amount, for native and token offers alike
  (liquidity_pool.rs:33-44). No pair lookup happens: the pool address is part
  of the step's configuration.
- The step handler calls the operation with `(deps, from_asset,
  to_asset_info, to)` (contract.rs:179-181), while the operation takes
  `(offer_asset, recipient)` (operations.rs:19). The model passes the offer
  asset, with `to` as the recipient.
- `MarketSwapMsg` is not a variant of `StrategyStepOperation`, so
  `Market.CreateExecutionMessage` is a standalone function. Its `to` is an
  `Option`, as in market.rs:19, although step messages carry a plain string.
- Planning never checks that one step's output asset is the next step's
  input asset (`Contract.PlanIgnoresIntermediateAssets`).

## Left out

- Query failures: the balance and tax oracles are total functions, so the
  `?` on `query_balance`, `query_pool` and `compute_tax` never fails here.
- `to_binary` failures: serialisation is not modelled, and payloads are
  datatype values.
- `deps.api.addr_validate` on the finalize receiver: addresses are opaque
  strings, and validation is taken to succeed.
- `receive_cw20` and the `Receive` execute variant: they only decode a hook
  message and forward it to `execute_strategy`, and decoding is
  serialisation.
- `query` / `query_config`, `set_contract_version`, `STATE.save`: storage
  plumbing. `Contract.Instantiate` returns the state it would store.
- Response attributes carry typed values rather than formatted strings. Error
  messages are `StdError` constructors carrying the reported values, not text.
- Host execution of sub-messages: the swaps a step emits are not run, so
  their own failures (slippage, a native offer sent without funds) are not
  modelled. Their
  effect on balances is the sequence of balance views given to
  `Host.RunQueue`. The host's atomic rollback is represented only by a run
  stopping at the first error.
- `Decimal` arithmetic: belief price and max spread are only passed through.
- `create_swap_msg` / `create_swap_send_msg`: these are foreign constructors,
  modelled as the `TerraSwap` and `TerraSwapSend` message variants.
