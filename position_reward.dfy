/** The per-position reward hook: the pending reward of one token under the current incentive. */
module PositionReward {
  import opened Types
  import opened Chain

  class PositionRewardHook {
    var reward: nat

    constructor ()
      ensures reward == 0
    {
      reward := 0;
    }

    /** The query effect: nothing without the staking contract and the current incentive; a revert of
        `getRewardInfo` is swallowed and the previous reward stays; otherwise the reward is the first
        element of the answer. `queried` says whether the contract was asked. */
    method Load(c: Snapshot, staking: Option<Handle>, currentIncentive: Option<Incentive>, tokenId: TokenId)
      returns (queried: bool)
      modifies this
      ensures queried == (staking.Some? && currentIncentive.Some?)
      ensures reward ==
              if queried && GetRewardInfo(c, currentIncentive.value.key, tokenId).RewardOk?
              then GetRewardInfo(c, currentIncentive.value.key, tokenId).reward
              else old(reward)
    {
      queried := staking.Some? && currentIncentive.Some?;
      if !queried {
        return;
      }
      match GetRewardInfo(c, currentIncentive.value.key, tokenId) {
        case RewardOk(r) => reward := r;
        case Revert =>
      }
    }
  }
}
