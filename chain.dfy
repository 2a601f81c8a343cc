/** An immutable snapshot of the two contracts the client reads: the position registry
    (an enumerable NFT ledger) and the staking rewards ledger. Every read call of the
    source is a lookup here; a missing entry stands for what the contract does then. */
module Chain {
  import opened Types

  /** What a public mapping getter returns for an address never written. */
  const ZeroAddress: Address := "0x0000000000000000000000000000000000000000"

  /** The staking ledger's deposit record of a token. */
  datatype Deposit = Deposit(owner: Address, numberOfStakes: nat)

  /** `getRewardInfo` either answers with the reward or reverts (no stake under that incentive). */
  datatype RewardInfo = RewardOk(reward: nat) | Revert

  datatype Snapshot = Snapshot(
    /** `balanceOf(c)` and `tokenOfOwnerByIndex(c, i)`: the tokens held by custodian `c`, in index order */
    held: map<Address, seq<TokenId>>,
    /** `positions(t).liquidity`; no entry: the token does not exist and the call reverts */
    liquidity: map<TokenId, nat>,
    /** `deposits(t)`; no entry: the zero record */
    deposits: map<TokenId, Deposit>,
    /** `getRewardInfo(key, t)`; no entry: revert */
    rewardInfo: map<(IncentiveKey, TokenId), RewardInfo>,
    /** `getApproved(t)`; no entry: the token does not exist and the call reverts */
    approved: map<TokenId, Address>,
    /** `ownerOf(t)`; no entry: the token does not exist and the call reverts */
    owners: map<TokenId, Address>,
    /** `rewards(rewardToken, account)`; no entry: zero */
    rewards: map<(Address, Address), nat>)

  /** A write call submitted through the transaction helper. */
  datatype Call =
    | ApproveCall(spender: Address, tokenId: TokenId)
    | SafeTransferFromCall(from: Address, to: Address, tokenId: TokenId)
    | StakeTokenCall(key: IncentiveKey, tokenId: TokenId)
    | ClaimRewardCall(rewardToken: Address, to: Address, amount: nat)

  function Held(c: Snapshot, custodian: Address): seq<TokenId>
  {
    if custodian in c.held then c.held[custodian] else []
  }

  function BalanceOf(c: Snapshot, custodian: Address): nat
  {
    |Held(c, custodian)|
  }

  function TokenOfOwnerByIndex(c: Snapshot, custodian: Address, index: nat): TokenId
    requires index < BalanceOf(c, custodian)
  {
    Held(c, custodian)[index]
  }

  /** `None` is a reverted call. */
  function LiquidityOf(c: Snapshot, t: TokenId): Option<nat>
  {
    if t in c.liquidity then Some(c.liquidity[t]) else None
  }

  function DepositOf(c: Snapshot, t: TokenId): Deposit
  {
    if t in c.deposits then c.deposits[t] else Deposit(ZeroAddress, 0)
  }

  function GetRewardInfo(c: Snapshot, key: IncentiveKey, t: TokenId): RewardInfo
  {
    if (key, t) in c.rewardInfo then c.rewardInfo[(key, t)] else Revert
  }

  /** `None` is a reverted call. */
  function GetApproved(c: Snapshot, t: TokenId): Option<Address>
  {
    if t in c.approved then Some(c.approved[t]) else None
  }

  /** `None` is a reverted call. */
  function OwnerOf(c: Snapshot, t: TokenId): Option<Address>
  {
    if t in c.owners then Some(c.owners[t]) else None
  }

  function Rewards(c: Snapshot, rewardToken: Address, account: Address): nat
  {
    if (rewardToken, account) in c.rewards then c.rewards[(rewardToken, account)] else 0
  }
}
