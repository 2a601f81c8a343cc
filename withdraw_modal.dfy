/** The withdraw stepper: unstake the token from the current incentive, then withdraw it from the
    staking contract. It resumes at "withdraw" when the deposit has no stakes left. */
module WithdrawModal {
  import opened Types
  import opened Chain

  const Steps: seq<string> := ["unstake", "withdraw"]

  datatype WithdrawAction = Unstake | Withdraw

  /** The step the load effect resumes at: 1 when the deposit has no stakes, else the current step. */
  function ResumeStep(numberOfStakes: nat, current: int): (step: int)
    ensures numberOfStakes == 0 ==> step == 1
    ensures numberOfStakes != 0 ==> step == current
  {
    if numberOfStakes == 0 then 1 else current
  }

  /** `unstakeOrWithdraw`: the action for each step; any other step only logs a warning. */
  function ActionAt(step: int): (a: Option<WithdrawAction>)
    ensures a == Some(Unstake) <==> step == 0
    ensures a == Some(Withdraw) <==> step == 1
  {
    if step == 0 then Some(Unstake) else if step == 1 then Some(Withdraw) else None
  }

  class WithdrawStepper {
    const tokenId: TokenId
    var activeStep: int

    ghost predicate Valid()
      reads this
    {
      0 <= activeStep < |Steps|
    }

    constructor (tokenId: TokenId)
      ensures Valid() && this.tokenId == tokenId && activeStep == 0
    {
      this.tokenId := tokenId;
      activeStep := 0;
    }

    /** The load effect: skipped without the staking contract or a current incentive id; otherwise
        the deposit's stake count decides. */
    method LoadStakes(c: Snapshot, staking: Option<Handle>, currentIncentiveId: Option<string>)
      requires Valid()
      modifies this`activeStep
      ensures Valid()
      ensures activeStep ==
              if staking.Some? && Truthy(currentIncentiveId)
              then ResumeStep(DepositOf(c, tokenId).numberOfStakes, old(activeStep))
              else old(activeStep)
    {
      if !(staking.Some? && Truthy(currentIncentiveId)) {
        return;
      }
      var deposit := DepositOf(c, tokenId);
      var isStaked := deposit.numberOfStakes != 0;
      if !isStaked {
        activeStep := 1;
      }
    }

    /** The button handler. The position hook's `unstake` and `withdraw` are not part of this model:
        `continued` says whether the hook called the continuation it was given. The unstake continuation
        moves to step 1; the withdraw continuation navigates to '/'. */
    method UnstakeOrWithdraw(continued: bool) returns (ran: Option<WithdrawAction>, navigatedTo: Option<string>)
      requires Valid()
      modifies this`activeStep
      ensures Valid()
      ensures ran == ActionAt(old(activeStep)) && ran.Some?
      ensures activeStep == if ran == Some(Unstake) && continued then 1 else old(activeStep)
      ensures navigatedTo == if ran == Some(Withdraw) && continued then Some("/") else None
    {
      ran := ActionAt(activeStep);
      navigatedTo := None;
      if activeStep == 0 {
        if continued {
          activeStep := 1;
        }
      } else {
        if continued {
          navigatedTo := Some("/");
        }
      }
    }
  }
}
