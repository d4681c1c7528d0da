/**
 The contract's entry points. A strategy is planned as one self-addressed
 message per step followed by one finalize message; the host runs them in
 order, each step re-entering the contract, and the finalize message checks
 what the requester gained against the minimum they asked for.
 */
module Contract {
  import opened CosmWasmStd
  import opened Assets
  import opened Msg
  import Operations

  /** The environment of a call: the address of this contract. */
  datatype Env = Env(contractAddress: Addr)

  /** Who sent the message being handled. */
  datatype MessageInfo = MessageInfo(sender: Addr)

  /** The stored configuration. */
  datatype State = State(owner: Addr, comission: Int16)

  /** Validates the commission and records the sender as owner. */
  function Instantiate(info: MessageInfo, msg: InstantiateMsg): (r: Result<(State, Response)>)
    ensures r.Ok? <==> 0 <= msg.comission <= 100
    ensures r.Err? ==> r.error == CommissionOutOfRange
    ensures r.Ok? ==> r.value.0 == State(info.sender, msg.comission)
    ensures r.Ok? ==> r.value.1.messages == []
  {
    if msg.comission < 0 || msg.comission > 100 then
      Err(CommissionOutOfRange)
    else
      var state := State(info.sender, msg.comission);
      Ok((state, Response([], [Attribute("method", Text("instantiate")), Attribute("owner", Text(info.sender))])))
  }

  /**
   The step messages for `steps`, which sit at 1-based positions
   `stepIndex + 1 ..` of a strategy of `stepsLen` steps. The step in the last
   position sends its proceeds to `receiver`; all others keep them on `contract`.
   */
  function StepMessages(
    contract: Addr, receiver: Addr, steps: seq<StrategyStep>, stepIndex: nat, stepsLen: nat)
    : (r: seq<CosmosMsg>)
    requires stepIndex + |steps| == stepsLen
    ensures |r| == |steps|
    ensures forall i :: 0 <= i < |steps| ==>
              r[i] == SelfCall(contract, ExecuteStrategyStep(
                        steps[i], if stepIndex + i + 1 == stepsLen then receiver else contract))
    decreases |steps|
  {
    if steps == [] then
      []
    else
      var position := stepIndex + 1;
      var to := if position == stepsLen then receiver else contract;
      [SelfCall(contract, ExecuteStrategyStep(steps[0], to))]
        + StepMessages(contract, receiver, steps[1..], position, stepsLen)
  }

  /** True when the strategy starts and ends in the same asset. */
  predicate IsRoundTrip(steps: seq<StrategyStep>)
    requires |steps| > 0
  {
    Equal(steps[0].GetFromAsset(), steps[|steps| - 1].GetToAsset())
  }

  /**
   Plans a strategy for the sender. Fails on an empty step list, and on a
   round trip whose input balance held by the contract is already below the
   minimum. Otherwise every step becomes a self-call, in input order, and a
   finalize self-call comes last carrying the sender's balance of the target
   asset as it is now, before any step has run.
   */
  function BuildPlan(
    env: Env, info: MessageInfo, steps: seq<StrategyStep>, minimumReceive: Uint128, balances: Balances)
    : (r: Result<Response>)
    ensures steps == [] ==> r == Err(MustProvideSteps)
    ensures r.Ok? <==>
              && |steps| > 0
              && !(steps[0].fromAsset == steps[|steps| - 1].toAsset
                   && balances(steps[0].fromAsset, env.contractAddress) < minimumReceive)
    ensures r.Err? && |steps| > 0 ==>
              r.error == ReceiveBelowMinimum(balances(steps[0].fromAsset, env.contractAddress), minimumReceive)
    ensures r.Ok? ==> |r.value.messages| == |steps| + 1
    ensures r.Ok? ==> forall i :: 0 <= i < |r.value.messages| ==>
              IsSelfCall(env.contractAddress, r.value.messages[i])
    ensures r.Ok? ==> forall i :: 0 <= i < |steps| ==>
              ContractCallOf(r.value.messages[i]) == Some(ExecuteStrategyStep(
                steps[i], if i == |steps| - 1 then info.sender else env.contractAddress))
    ensures r.Ok? ==>
              var target := steps[|steps| - 1].toAsset;
              ContractCallOf(r.value.messages[|steps|])
                == Some(FinalizeStrategy(info.sender, target, balances(target, info.sender), minimumReceive))
  {
    var stepsLen := |steps|;
    if stepsLen == 0 then
      Err(MustProvideSteps)
    else
      var to := info.sender;
      var fromAssetInfo := steps[0].GetFromAsset();
      var targetAssetInfo := steps[stepsLen - 1].GetToAsset();
      var currentAmount := balances(fromAssetInfo, env.contractAddress);
      if IsRoundTrip(steps) && currentAmount < minimumReceive then
        Err(ReceiveBelowMinimum(currentAmount, minimumReceive))
      else
        var messages := StepMessages(env.contractAddress, to, steps, 0, stepsLen);
        var receiverBalance := balances(targetAssetInfo, to);
        var finalize := FinalizeStrategy(to, targetAssetInfo, receiverBalance, minimumReceive);
        Ok(Response(messages + [SelfCall(env.contractAddress, finalize)], []))
  }

  /**
   Runs one step. Only the contract itself may call it; the offer is the
   contract's whole current balance of the step's input asset.
   */
  function RunStep(env: Env, info: MessageInfo, step: StrategyStep, to: Addr, balances: Balances)
    : (r: Result<Response>)
    ensures env.contractAddress != info.sender ==>
              r == Err(UnauthorizedStep(env.contractAddress, info.sender))
    ensures r.Ok? <==> env.contractAddress == info.sender
    ensures r.Ok? ==>
              var offer := Asset(step.fromAsset, balances(step.fromAsset, env.contractAddress));
              r.value.messages == [Operations.CreateExecutionMessage(step.operation, offer, to).value]
  {
    if env.contractAddress != info.sender then
      Err(UnauthorizedStep(env.contractAddress, info.sender))
    else
      var contractAddr := env.contractAddress;
      var amount := balances(step.GetFromAsset(), contractAddr);
      var fromAsset := Asset(step.GetFromAsset(), amount);
      match Operations.CreateExecutionMessage(step.operation, fromAsset, to)
      case Err(e) => Err(e)
      case Ok(msg) => Ok(Response([msg], []))
  }

  /**
   Ends a strategy. Only the contract itself may call it. Succeeds, emitting
   nothing, exactly when `receiver` now holds at least `minimumReceive` more of
   the target asset than `initialBalance`; a balance that fell below the
   snapshot is an arithmetic failure rather than a shortfall.
   */
  function Finalize(
    env: Env, info: MessageInfo, receiver: Addr, targetAssetInfo: AssetInfo,
    initialBalance: Uint128, minimumReceive: Uint128, balances: Balances)
    : (r: Result<Response>)
    ensures env.contractAddress != info.sender ==>
              r == Err(UnauthorizedFinalize(env.contractAddress, info.sender))
    ensures var current := balances(targetAssetInfo, receiver);
            && (env.contractAddress == info.sender && current < initialBalance ==>
                  r == Err(SubOverflow(current, initialBalance)))
            && (env.contractAddress == info.sender && initialBalance <= current
                && current - initialBalance < minimumReceive ==>
                  r == Err(MinimumReceiveNotMet(minimumReceive, current - initialBalance)))
            && (r.Ok? <==> env.contractAddress == info.sender && initialBalance + minimumReceive <= current)
    ensures r.Ok? ==> r.value.messages == []
  {
    if env.contractAddress != info.sender then
      Err(UnauthorizedFinalize(env.contractAddress, info.sender))
    else
      var currentBalance := balances(targetAssetInfo, receiver);
      var swapAmount :- CheckedSub(currentBalance, initialBalance);
      if swapAmount < minimumReceive then
        Err(MinimumReceiveNotMet(minimumReceive, swapAmount))
      else
        Ok(Response([], [
          Attribute("initial_balance", Amount(initialBalance)),
          Attribute("final_balance", Amount(currentBalance)),
          Attribute("target_asset", AssetLabel(targetAssetInfo))]))
  }

  /** The steps a queue of step calls carries, in order; `None` if some message is not a step call. */
  function StepsOf(queue: seq<CosmosMsg>): Option<seq<StrategyStep>>
    decreases |queue|
  {
    if queue == [] then
      Some([])
    else
      match (ContractCallOf(queue[0]), StepsOf(queue[1..]))
      case (Some(ExecuteStrategyStep(step, _)), Some(rest)) => Some([step] + rest)
      case _ => None
  }

  lemma {:induction false} StepMessagesCarrySteps(
    contract: Addr, receiver: Addr, steps: seq<StrategyStep>, stepIndex: nat, stepsLen: nat)
    requires stepIndex + |steps| == stepsLen
    ensures StepsOf(StepMessages(contract, receiver, steps, stepIndex, stepsLen)) == Some(steps)
    decreases |steps|
  {
    if steps != [] {
      var queue := StepMessages(contract, receiver, steps, stepIndex, stepsLen);
      StepMessagesCarrySteps(contract, receiver, steps[1..], stepIndex + 1, stepsLen);
      assert queue[1..] == StepMessages(contract, receiver, steps[1..], stepIndex + 1, stepsLen);
      assert [steps[0]] + steps[1..] == steps;
    }
  }

  /** Reading the step calls of a plan back gives exactly the requested steps, in order. */
  lemma PlanCarriesSteps(
    env: Env, info: MessageInfo, steps: seq<StrategyStep>, minimumReceive: Uint128, balances: Balances)
    requires BuildPlan(env, info, steps, minimumReceive, balances).Ok?
    ensures StepsOf(BuildPlan(env, info, steps, minimumReceive, balances).value.messages[..|steps|])
              == Some(steps)
  {
    var plan := BuildPlan(env, info, steps, minimumReceive, balances).value.messages;
    var stepCalls := StepMessages(env.contractAddress, info.sender, steps, 0, |steps|);
    assert plan[..|steps|] == stepCalls;
    StepMessagesCarrySteps(env.contractAddress, info.sender, steps, 0, |steps|);
  }

  /**
   Planning never compares one step's output asset with the next step's input:
   whether a plan is accepted depends only on the first input asset, the last
   output asset and the number of steps.
   */
  lemma PlanIgnoresIntermediateAssets(
    env: Env, info: MessageInfo, steps: seq<StrategyStep>, other: seq<StrategyStep>,
    minimumReceive: Uint128, balances: Balances)
    requires |steps| == |other| > 0
    requires steps[0].fromAsset == other[0].fromAsset
    requires steps[|steps| - 1].toAsset == other[|other| - 1].toAsset
    ensures (BuildPlan(env, info, steps, minimumReceive, balances).Ok? <==>
             BuildPlan(env, info, other, minimumReceive, balances).Ok?)
    ensures BuildPlan(env, info, steps, minimumReceive, balances).Ok? ==>
              BuildPlan(env, info, steps, minimumReceive, balances).value.messages[|steps|]
                == BuildPlan(env, info, other, minimumReceive, balances).value.messages[|other|]
  {
  }

  /** Routes an execute message to its handler. */
  function Execute(env: Env, info: MessageInfo, msg: ExecuteMsg, balances: Balances)
    : (r: Result<Response>)
    ensures ((msg.ExecuteStrategyStep? || msg.FinalizeStrategy?) && info.sender != env.contractAddress)
              ==> r.Err? && r.error.IsUnauthorized()
    ensures msg.ExecuteStrategyStep? && info.sender == env.contractAddress ==> r.Ok?
  {
    match msg
    case ExecuteStrategy(steps, minimumReceive) =>
      BuildPlan(env, info, steps, minimumReceive, balances)
    case ExecuteStrategyStep(step, to) =>
      RunStep(env, info, step, to, balances)
    case FinalizeStrategy(receiver, assetInfo, initialBalance, minimumReceive) =>
      Finalize(env, info, receiver, assetInfo, initialBalance, minimumReceive, balances)
  }
}
