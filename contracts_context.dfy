/** The contracts context, the earlier variant of the data context: per-network addresses,
    contract handles gated on an address and a signer, the incentive directory, and two
    separate loaders for tokens held by the address and tokens deposited with the staking contract. */
module ContractsContext {
  import opened Types
  import opened Chain
  import opened Config
  import IncentiveDirectory

  /** A per-network address: null without a network; a network the table lacks reads as undefined, also null here. */
  function DerivedAddress(table: map<string, Address>, network: Option<string>): (r: Option<Address>)
    ensures !Truthy(network) ==> r.None?
    ensures Truthy(network) ==> r == if network.value in table then Some(table[network.value]) else None
  {
    if !Truthy(network) then None
    else if network.value in table then Some(table[network.value])
    else None
  }

  /** `new ethers.Contract(address, abi, signer)` when the address is non-empty and a signer exists, else null. */
  function ContractHandle(address: Option<Address>, signer: Option<Signer>): (r: Option<Handle>)
    ensures r.Some? <==> Truthy(address) && signer.Some?
    ensures r.Some? ==> r.value.address == address.value
  {
    if Truthy(address) && signer.Some? then Some(Handle(address.value)) else None
  }

  function NftPositionsHandle(network: Option<string>, signer: Option<Signer>): Option<Handle>
  {
    ContractHandle(DerivedAddress(NftPositionsManagerAddress, network), signer)
  }

  function StakingRewardsHandle(network: Option<string>, signer: Option<Signer>): Option<Handle>
  {
    ContractHandle(DerivedAddress(StakingRewardsAddress, network), signer)
  }

  /** Both handles exist only with a network and a signer; on either configured network the
      registry handle is at the configured address. */
  lemma HandlesNeedNetworkAndSigner(network: Option<string>, signer: Option<Signer>)
    ensures NftPositionsHandle(network, signer).Some? || StakingRewardsHandle(network, signer).Some? ==>
            Truthy(network) && signer.Some?
    ensures Truthy(network) && network.value in AvailableNetworks && signer.Some? ==>
            NftPositionsHandle(network, signer) == Some(Handle(NftPositionsManagerAddress[network.value]))
  {
  }

  /** The staking contract address of mainnet is empty, so the mainnet staking handle is always null;
      on rinkeby it is built with the configured address. */
  lemma StakingHandleByNetwork(signer: Option<Signer>)
    ensures StakingRewardsHandle(Some(NetworkMainnet), signer) == None
    ensures signer.Some? ==> StakingRewardsHandle(Some(NetworkRinkeby), signer) ==
                             Some(Handle("0xc462aB5e66067153Bf1B368493E4744C1cA4BeC9"))
  {
  }

  /** The unstaked loader: `balanceOf(address)` indices, each mapped to `tokenOfOwnerByIndex`, no filtering. */
  method LoadUnstakedTokens(c: Snapshot, address: Address) returns (tokens: seq<TokenId>)
    ensures |tokens| == BalanceOf(c, address)
    ensures forall i | 0 <= i < |tokens| :: tokens[i] == TokenOfOwnerByIndex(c, address, i)
  {
    var n := BalanceOf(c, address);
    tokens := [];
    var i := 0;
    while i < n
      invariant 0 <= i <= n
      invariant |tokens| == i
      invariant forall k | 0 <= k < i :: tokens[k] == TokenOfOwnerByIndex(c, address, k)
    {
      tokens := tokens + [TokenOfOwnerByIndex(c, address, i)];
      i := i + 1;
    }
  }

  /** The tokens of `ts` whose deposit record names `address` as owner, in the order of `ts`. */
  function DepositedBy(c: Snapshot, address: Address, ts: seq<TokenId>): seq<TokenId>
  {
    if |ts| == 0 then []
    else DepositedBy(c, address, ts[..|ts| - 1]) +
         (if DepositOf(c, ts[|ts| - 1]).owner == address then [ts[|ts| - 1]] else [])
  }

  /** The staked list holds exactly the enumerated tokens whose deposit owner is the address. */
  lemma {:induction false} DepositedByMembers(c: Snapshot, address: Address, ts: seq<TokenId>, t: TokenId)
    ensures t in DepositedBy(c, address, ts) <==> t in ts && DepositOf(c, t).owner == address
  {
    if |ts| > 0 {
      var init := ts[..|ts| - 1];
      DepositedByMembers(c, address, init, t);
      assert ts == init + [ts[|ts| - 1]];
    }
  }

  /** The staked list is never longer than the enumeration. */
  lemma {:induction false} DepositedByLength(c: Snapshot, address: Address, ts: seq<TokenId>)
    ensures |DepositedBy(c, address, ts)| <= |ts|
  {
    if |ts| > 0 {
      DepositedByLength(c, address, ts[..|ts| - 1]);
    }
  }

  /** Filtering keeps enumeration order: filtering two consecutive runs gives the two filtered runs in turn. */
  lemma {:induction false} DepositedByAppend(c: Snapshot, address: Address, a: seq<TokenId>, b: seq<TokenId>)
    ensures DepositedBy(c, address, a + b) == DepositedBy(c, address, a) + DepositedBy(c, address, b)
  {
    if |b| == 0 {
      assert a + b == a;
    } else {
      var init := b[..|b| - 1];
      DepositedByAppend(c, address, a, init);
      assert (a + b)[..|a + b| - 1] == a + init;
      assert (a + b)[|a + b| - 1] == b[|b| - 1];
    }
  }

  /** The staked loader: enumerate the staking contract's tokens and push those deposited by the address. */
  method LoadStakedTokens(c: Snapshot, address: Address, stakingAddress: Address) returns (ownerPositions: seq<TokenId>)
    ensures ownerPositions == DepositedBy(c, address, Held(c, stakingAddress))
  {
    var ts := Held(c, stakingAddress);
    var n := BalanceOf(c, stakingAddress);
    ownerPositions := [];
    var i := 0;
    while i < n
      invariant 0 <= i <= n
      invariant ownerPositions == DepositedBy(c, address, ts[..i])
    {
      var tokenId := TokenOfOwnerByIndex(c, stakingAddress, i);
      assert ts[..i + 1][..i] == ts[..i];
      if DepositOf(c, tokenId).owner == address {
        ownerPositions := ownerPositions + [tokenId];
      }
      i := i + 1;
    }
    assert ts[..n] == ts;
  }

  predicate UnstakedReady(nft: Option<Handle>, address: Option<Address>, currentIncentiveId: Option<string>)
  {
    nft.Some? && Truthy(address) && Truthy(currentIncentiveId)
  }

  predicate StakedReady(nft: Option<Handle>, staking: Option<Handle>, address: Option<Address>,
                        stakingAddress: Option<Address>, currentIncentiveId: Option<string>)
  {
    nft.Some? && staking.Some? && Truthy(address) && Truthy(stakingAddress) && Truthy(currentIncentiveId)
  }

  class ContractsProvider {
    var unstakedPositions: seq<TokenId>
    var stakedPositions: seq<TokenId>
    /** `None` is `undefined`, stored for a network without an incentive list. */
    var incentives: Option<seq<Incentive>>
    var currentIncentiveId: Option<string>

    constructor ()
      ensures unstakedPositions == [] && stakedPositions == [] && incentives == Some([]) && currentIncentiveId == None
    {
      unstakedPositions, stakedPositions, incentives, currentIncentiveId := [], [], Some([]), None;
    }

    function CurrentIncentive(): IncentiveDirectory.Memo
      reads this
    {
      IncentiveDirectory.CurrentIncentive(incentives, currentIncentiveId)
    }

    method SetCurrentIncentiveId(id: string)
      modifies this`currentIncentiveId
      ensures currentIncentiveId == Some(id)
    {
      currentIncentiveId := Some(id);
    }

    /** The "load incentives" effect, identical to the data context's. */
    method LoadIncentives(table: map<string, seq<Incentive>>, network: Option<string>) returns (threw: bool)
      modifies this`incentives, this`currentIncentiveId
      ensures var s := IncentiveDirectory.InitialSelection(table, network);
              && threw == s.Throw?
              && incentives == (match s
                                case Skip => old(incentives)
                                case Select(list, _) => Some(list)
                                case Throw(stored) => stored)
              && currentIncentiveId == (if s.Select? then Some(s.currentId) else old(currentIncentiveId))
    {
      threw := false;
      if !Truthy(network) {
        return;
      }
      var stored := IncentiveDirectory.IncentivesFor(table, network.value);
      incentives := stored;
      if stored.None? || |stored.value| == 0 {
        threw := true;
        return;
      }
      currentIncentiveId := Some(stored.value[0].id);
    }

    /** The "load unstaked positions" effect. */
    method LoadUnstaked(c: Snapshot, nft: Option<Handle>, address: Option<Address>)
      modifies this`unstakedPositions
      ensures UnstakedReady(nft, address, currentIncentiveId) ==> unstakedPositions == Held(c, address.value)
      ensures !UnstakedReady(nft, address, currentIncentiveId) ==> unstakedPositions == old(unstakedPositions)
    {
      if !UnstakedReady(nft, address, currentIncentiveId) {
        return;
      }
      var tokens := LoadUnstakedTokens(c, address.value);
      unstakedPositions := tokens;
    }

    /** The "load staked positions" effect; it enumerates the configured staking address. */
    method LoadStaked(c: Snapshot, nft: Option<Handle>, staking: Option<Handle>, address: Option<Address>,
                      stakingAddress: Option<Address>)
      modifies this`stakedPositions
      ensures StakedReady(nft, staking, address, stakingAddress, currentIncentiveId) ==>
              stakedPositions == DepositedBy(c, address.value, Held(c, stakingAddress.value))
      ensures !StakedReady(nft, staking, address, stakingAddress, currentIncentiveId) ==>
              stakedPositions == old(stakedPositions)
    {
      if !StakedReady(nft, staking, address, stakingAddress, currentIncentiveId) {
        return;
      }
      var tokens := LoadStakedTokens(c, address.value, stakingAddress.value);
      stakedPositions := tokens;
    }
  }
}
