/**
 How the host runs a plan: the queued self-calls are executed one after the
 other, each as a call from the contract itself, and the first failure aborts
 the whole transaction. What a step's swap does to balances happens outside
 the contract; it is represented by the balance view each message sees.
 */
module Host {
  import opened CosmWasmStd
  import opened Assets
  import opened Msg
  import opened Contract

  /**
   Runs `queue` in order; `views[k]` is the chain's balances when the k-th
   message runs. The result is every response, or the first error.
   */
  function RunQueue(env: Env, queue: seq<CosmosMsg>, views: seq<Balances>): Result<seq<Response>>
    requires |views| == |queue|
    requires forall i :: 0 <= i < |queue| ==> IsSelfCall(env.contractAddress, queue[i])
    decreases |queue|
  {
    if queue == [] then
      Ok([])
    else
      assert IsSelfCall(env.contractAddress, queue[0]);
      var head :- Execute(env, MessageInfo(env.contractAddress), queue[0].msg.execute, views[0]);
      var rest :- RunQueue(env, queue[1..], views[1..]);
      Ok([head] + rest)
  }

  predicate IsStepCall(contract: Addr, m: CosmosMsg) {
    IsSelfCall(contract, m) && m.msg.execute.ExecuteStrategyStep?
  }

  /** Step calls issued by the contract itself never fail, so they pass control on. */
  lemma {:induction false} StepCallsPassThrough(
    env: Env, steps: seq<CosmosMsg>, rest: seq<CosmosMsg>, views: seq<Balances>)
    requires forall i :: 0 <= i < |steps| ==> IsStepCall(env.contractAddress, steps[i])
    requires forall i :: 0 <= i < |rest| ==> IsSelfCall(env.contractAddress, rest[i])
    requires |views| == |steps| + |rest|
    ensures forall i :: 0 <= i < |steps + rest| ==> IsSelfCall(env.contractAddress, (steps + rest)[i])
    ensures RunQueue(env, steps + rest, views).Ok? <==> RunQueue(env, rest, views[|steps|..]).Ok?
    ensures RunQueue(env, steps + rest, views).Err? ==>
              RunQueue(env, steps + rest, views).error == RunQueue(env, rest, views[|steps|..]).error
    decreases |steps|
  {
    var queue := steps + rest;
    assert forall i :: 0 <= i < |queue| ==> IsSelfCall(env.contractAddress, queue[i]) by {
      forall i | 0 <= i < |queue|
        ensures IsSelfCall(env.contractAddress, queue[i])
      {
        if i < |steps| {
          assert queue[i] == steps[i];
        } else {
          assert queue[i] == rest[i - |steps|];
        }
      }
    }
    if steps == [] {
      assert queue == rest;
      assert views[|steps|..] == views;
    } else {
      assert queue[0] == steps[0];
      assert queue[1..] == steps[1..] + rest;
      assert views[1..][|steps| - 1..] == views[|steps|..];
      StepCallsPassThrough(env, steps[1..], rest, views[1..]);
      assert Execute(env, MessageInfo(env.contractAddress), queue[0].msg.execute, views[0]).Ok?;
    }
  }

  /**
   End to end: the plan's self-calls, run in order, succeed exactly when the
   requester's final balance of the target asset exceeds the balance recorded
   when the plan was built by at least the minimum, whatever the balances were in between; when
   it fails, it fails with the finalize check's error.
   */
  lemma StrategyOutcome(
    env: Env, info: MessageInfo, steps: seq<StrategyStep>, minimumReceive: Uint128,
    balances: Balances, views: seq<Balances>)
    requires BuildPlan(env, info, steps, minimumReceive, balances).Ok?
    requires |views| == |steps| + 1
    ensures var plan := BuildPlan(env, info, steps, minimumReceive, balances).value.messages;
            var target := steps[|steps| - 1].toAsset;
            var snapshot := balances(target, info.sender);
            var final := views[|steps|](target, info.sender);
            var run := RunQueue(env, plan, views);
            && (run.Ok? <==> snapshot + minimumReceive <= final)
            && (run.Err? ==> run.error == Finalize(
                  env, MessageInfo(env.contractAddress), info.sender, target, snapshot, minimumReceive,
                  views[|steps|]).error)
  {
    var plan := BuildPlan(env, info, steps, minimumReceive, balances).value.messages;
    var stepCalls := plan[..|steps|];
    var finalizeCall := plan[|steps|..];
    assert plan == stepCalls + finalizeCall;
    assert forall i :: 0 <= i < |stepCalls| ==> stepCalls[i] == plan[i];
    StepCallsPassThrough(env, stepCalls, finalizeCall, views);
    var tail := views[|steps|..];
    assert finalizeCall == [plan[|steps|]];
    assert finalizeCall[1..] == [];
    assert tail[1..] == [];
  }
}
