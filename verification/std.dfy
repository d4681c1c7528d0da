/**
 The few host-library notions the contract is written against: addresses,
 128-bit unsigned amounts, fixed-point decimals, coins, the error type and the
 result type every entry point returns.
 */
module CosmWasmStd {

  /** 2^128: every `Uint128` amount lies strictly below it. */
  const UINT128_LIMIT: int := 0x1_0000_0000_0000_0000_0000_0000_0000_0000

  /** Unsigned 128-bit amount. Subtraction on it is checked, never wrapping. */
  type Uint128 = x: nat | x < UINT128_LIMIT

  /** Signed 16-bit integer, the width of the configured commission. */
  type Int16 = x: int | -0x8000 <= x < 0x8000

  /** An account or contract address, treated as an opaque string. */
  type Addr = string

  /** A fixed-point number, kept as its raw atomics and only ever passed through. */
  datatype Decimal = Decimal(atomics: Uint128)

  /** A native-currency amount. */
  datatype Coin = Coin(denom: string, amount: Uint128)

  datatype Option<+T> = None | Some(value: T)

  /** Every way an entry point of the contract can fail, with the values it reports. */
  datatype StdError =
    | CommissionOutOfRange
    | MustProvideSteps
      /** Round-trip strategy whose input balance is already below the bound. */
    | ReceiveBelowMinimum(receiveAmount: Uint128, minimumAmount: Uint128)
    | UnauthorizedStep(expectedCaller: Addr, caller: Addr)
    | UnauthorizedFinalize(expectedCaller: Addr, caller: Addr)
    | MinimumReceiveNotMet(minimumReceive: Uint128, swapAmount: Uint128)
      /** A checked subtraction `minuend - subtrahend` that would go below zero. */
    | SubOverflow(minuend: Uint128, subtrahend: Uint128)
    | CustomTokensNotSupported
  {
    predicate IsUnauthorized() {
      UnauthorizedStep? || UnauthorizedFinalize?
    }
  }

  datatype Result<+T> = Ok(value: T) | Err(error: StdError) {

    predicate IsFailure() {
      Err?
    }

    function PropagateFailure<U>(): Result<U>
      requires Err?
    {
      Err(error)
    }

    function Extract(): T
      requires Ok?
    {
      value
    }
  }

  /** Checked 128-bit subtraction: fails instead of wrapping below zero. */
  function CheckedSub(a: Uint128, b: Uint128): (r: Result<Uint128>)
    ensures r.Ok? <==> b <= a
    ensures r.Ok? ==> r.value + b == a
    ensures r.Err? ==> r.error == SubOverflow(a, b)
  {
    if a < b then Err(SubOverflow(a, b)) else Ok(a - b)
  }
}
