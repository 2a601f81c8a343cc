/** Values shared by every component: the records of the app's type file, contract handles,
    and the JavaScript notions (null, truthiness) the components test. */
module Types {

  /** A nullable value (`T | null` in the source). */
  datatype Option<+T> = None | Some(value: T)

  /** Account and contract addresses are opaque strings compared with `===`. */
  type Address = string

  /** Token ids of the position registry are unbounded non-negative integers. */
  type TokenId = nat

  datatype IncentiveKey = IncentiveKey(
    rewardToken: Address,
    pool: Address,
    startTime: int,
    endTime: int,
    refundee: Address)

  /** A reward programme; `id` is opaque and never recomputed from `key`. */
  datatype Incentive = Incentive(id: string, key: IncentiveKey)

  /** A position as published by the data context: the token and the custodian it was found under. */
  datatype LiquidityPosition = LiquidityPosition(tokenId: TokenId, owner: Address)

  /** A contract handle built from an address and a signer; only its address is observable. */
  datatype Handle = Handle(address: Address)

  /** The wallet's signer; `account` is what `getAddress()` resolves to. */
  datatype Signer = Signer(account: Address)

  /** JavaScript truthiness of a nullable string: `null` and `''` are falsy. */
  predicate Truthy(s: Option<string>)
  {
    s.Some? && s.value != ""
  }

  function Digit(d: nat): char
    requires d < 10
  {
    "0123456789"[d]
  }

  /** The decimal text of a non-negative integer (`toString()` of a big number). */
  function Decimal(n: nat): (s: string)
    ensures |s| > 0
  {
    if n < 10 then [Digit(n)] else Decimal(n / 10) + [Digit(n % 10)]
  }

  /** A stepper's button text, `isWorking ? isWorking : STEPS[activeStep]`: the working label while
      one is set, else the name of the active step. */
  function StepButtonLabel(isWorking: Option<string>, steps: seq<string>, step: int): (text: string)
    requires 0 <= step < |steps|
    ensures Truthy(isWorking) ==> text == isWorking.value
    ensures !Truthy(isWorking) ==> text == steps[step]
  {
    if Truthy(isWorking) then isWorking.value else steps[step]
  }
}
