/** The stake stepper: approve the staking contract for the token, transfer the token to it,
    then stake it under the current incentive. It resumes at the step on-chain custody and
    approval imply, and each successful transaction advances it. */
module StakeModal {
  import opened Types
  import opened Chain
  import opened Notifications

  const Steps: seq<string> := ["approve", "transfer", "stake"]

  datatype StakeAction = Approve | Transfer | Stake

  /** What the stepper's context provides: the wallet address, both handles and the current incentive. */
  datatype StakeEnv = StakeEnv(
    address: Option<Address>,
    nft: Option<Handle>,
    staking: Option<Handle>,
    currentIncentive: Option<Incentive>)

  /** The step the "load approval" effect resumes at, from the token's owner and approved address. */
  function ResumeStep(owner: Address, approved: Address, staking: Address, current: int): (step: int)
    ensures owner == staking ==> step == 2
    ensures owner != staking && approved == staking ==> step == 1
    ensures owner != staking && approved != staking ==> step == current
  {
    if owner == staking then 2 else if approved == staking then 1 else current
  }

  /** `approveOrTransferOrStake`: the action for each step; any other step only logs a warning. */
  function ActionAt(step: int): (a: Option<StakeAction>)
    ensures a == Some(Approve) <==> step == 0
    ensures a == Some(Transfer) <==> step == 1
    ensures a == Some(Stake) <==> step == 2
  {
    if step == 0 then Some(Approve)
    else if step == 1 then Some(Transfer)
    else if step == 2 then Some(Stake)
    else None
  }

  /** The guard each action checks before doing anything; only `transfer` needs the address. */
  predicate Ready(action: StakeAction, env: StakeEnv)
  {
    match action
    case Approve => env.nft.Some? && env.staking.Some? && env.currentIncentive.Some?
    case Transfer => Truthy(env.address) && env.nft.Some? && env.staking.Some? && env.currentIncentive.Some?
    case Stake => env.staking.Some? && env.currentIncentive.Some?
  }

  function CallFor(action: StakeAction, env: StakeEnv, tokenId: TokenId): Call
    requires Ready(action, env)
  {
    match action
    case Approve => ApproveCall(env.staking.value.address, tokenId)
    case Transfer => SafeTransferFromCall(env.address.value, env.staking.value.address, tokenId)
    case Stake => StakeTokenCall(env.currentIncentive.value.key, tokenId)
  }

  /** The working label, which is also the start notice. */
  function StartLabel(action: StakeAction): string
  {
    match action
    case Approve => "Approving.."
    case Transfer => "Transfering.."
    case Stake => "Staking.."
  }

  function EndLabel(action: StakeAction): string
  {
    match action
    case Approve => "Approved!"
    case Transfer => "Transfered!"
    case Stake => "Staked!"
  }

  /** The step after an action's transaction: a mined approve moves to 1, a mined transfer to 2;
      a mined stake and every failure leave the step where it was. */
  function StepAfter(action: StakeAction, step: int, outcome: TxOutcome): (next: int)
    ensures !outcome.Mined? ==> next == step
    ensures outcome.Mined? ==> next == match action case Approve => 1 case Transfer => 2 case Stake => step
  {
    if !outcome.Mined? then step
    else match action
      case Approve => 1
      case Transfer => 2
      case Stake => step
  }

  /** The step stays in {0, 1, 2} under every derivation and every action: the stepper never leaves its step list. */
  lemma StepsStayInRange(action: StakeAction, step: int, outcome: TxOutcome, owner: Address, approved: Address, staking: Address)
    requires 0 <= step < |Steps|
    ensures 0 <= StepAfter(action, step, outcome) < |Steps|
    ensures 0 <= ResumeStep(owner, approved, staking, step) < |Steps|
    ensures ActionAt(step).Some?
  {
  }

  class StakeStepper {
    const tokenId: TokenId
    var activeStep: int
    var isWorking: Option<string>
    /** The label `isWorking` showed while the last action's transaction was pending. */
    ghost var labelWhilePending: Option<string>

    ghost predicate Valid()
      reads this
    {
      0 <= activeStep < |Steps|
    }

    constructor (tokenId: TokenId)
      ensures Valid() && this.tokenId == tokenId
      ensures activeStep == 0 && isWorking == None && labelWhilePending == None
    {
      this.tokenId := tokenId;
      activeStep, isWorking, labelWhilePending := 0, None, None;
    }

    /** The "load approval" effect; when either read reverts, `Promise.all` rejects and nothing changes. */
    method LoadApproval(c: Snapshot, staking: Option<Handle>, nft: Option<Handle>)
      requires Valid()
      modifies this`activeStep
      ensures Valid()
      ensures activeStep ==
              if staking.Some? && nft.Some? && GetApproved(c, tokenId).Some? && OwnerOf(c, tokenId).Some?
              then ResumeStep(OwnerOf(c, tokenId).value, GetApproved(c, tokenId).value, staking.value.address, old(activeStep))
              else old(activeStep)
    {
      if !(staking.Some? && nft.Some?) {
        return;
      }
      var approved := GetApproved(c, tokenId);
      var owner := OwnerOf(c, tokenId);
      if approved.None? || owner.None? {
        return;
      }
      if owner.value == staking.value.address {
        activeStep := 2;
      } else if approved.value == staking.value.address {
        activeStep := 1;
      }
    }

    /** `approve`, `transfer` or `stake`: check the guard, set the working label, submit the call through
        `tx`, advance the step when it is mined, and clear the label whether it succeeded or not. */
    method Perform(action: StakeAction, n: NotificationsProvider, env: StakeEnv, outcome: TxOutcome)
      returns (call: Option<Call>)
      requires Valid()
      modifies this, n
      ensures Valid()
      ensures Ready(action, env) ==>
              && call == Some(CallFor(action, env, tokenId))
              && n.queue == old(n.queue) + TxTrace(StartLabel(action), EndLabel(action), outcome)
              && activeStep == StepAfter(action, old(activeStep), outcome)
              && isWorking == None
              && labelWhilePending == Some(StartLabel(action))
      ensures !Ready(action, env) ==>
              && call == None && n.queue == old(n.queue) && activeStep == old(activeStep)
              && isWorking == old(isWorking) && labelWhilePending == old(labelWhilePending)
    {
      if !Ready(action, env) {
        return None;
      }
      isWorking := Some(StartLabel(action));
      labelWhilePending := isWorking;
      call := Some(CallFor(action, env, tokenId));
      var rethrown := n.Tx(StartLabel(action), EndLabel(action), outcome);
      if rethrown.None? {
        match action {
          case Approve => activeStep := 1;
          case Transfer => activeStep := 2;
          case Stake =>
        }
      }
      isWorking := None;
    }

    /** The button handler: runs the action of the active step. */
    method ApproveOrTransferOrStake(n: NotificationsProvider, env: StakeEnv, outcome: TxOutcome)
      returns (ran: Option<StakeAction>, call: Option<Call>)
      requires Valid()
      modifies this, n
      ensures Valid()
      ensures ran == ActionAt(old(activeStep)) && ran.Some?
      ensures Ready(ran.value, env) ==>
              && call == Some(CallFor(ran.value, env, tokenId))
              && n.queue == old(n.queue) + TxTrace(StartLabel(ran.value), EndLabel(ran.value), outcome)
              && activeStep == StepAfter(ran.value, old(activeStep), outcome)
              && isWorking == None
      ensures !Ready(ran.value, env) ==>
              call == None && n.queue == old(n.queue) && activeStep == old(activeStep) && isWorking == old(isWorking)
    {
      ran := ActionAt(activeStep);
      call := Perform(ran.value, n, env, outcome);
    }

    function Label(): string
      reads this
      requires Valid()
    {
      StepButtonLabel(isWorking, Steps, activeStep)
    }
  }
}
