/** The data context: the incentive directory state and the reconciliation of the wallet's
    liquidity positions against the staking contract. Each reload enumerates two custodians,
    the connected address and the staking contract, keeps the live tokens that belong to the
    address, tags each with the custodian it was found under and publishes them sorted. */
module DataContext {
  import opened Types
  import opened Chain
  import opened OrderBy
  import IncentiveDirectory

  /** The outcome of `loadPosition` for one token: a reverted call, `null`, or a position. */
  datatype Loaded = Reverted | Dropped | Kept(position: LiquidityPosition)

  /** A token is live when its liquidity is non-zero. */
  ghost predicate Live(c: Snapshot, t: TokenId)
  {
    t in c.liquidity && c.liquidity[t] > 0
  }

  /** The drop rule, with the custodian checked first: a token found under the address is the
      address's whatever its deposit record says. */
  ghost predicate BelongsTo(c: Snapshot, address: Address, custodian: Address, t: TokenId)
  {
    custodian == address || DepositOf(c, t).owner == address
  }

  function LoadPosition(c: Snapshot, address: Address, custodian: Address, t: TokenId): (r: Loaded)
    ensures r.Reverted? <==> t !in c.liquidity
    ensures r.Kept? <==> Live(c, t) && BelongsTo(c, address, custodian, t)
    ensures r.Kept? ==> r.position == LiquidityPosition(t, custodian)
  {
    match LiquidityOf(c, t)
    case None => Reverted
    case Some(liquidity) =>
      if liquidity == 0 then Dropped
      else if custodian != address && DepositOf(c, t).owner != address then Dropped
      else Kept(LiquidityPosition(t, custodian))
  }

  /** The positions `loadPositions` collects from the tokens `ts` enumerated under `custodian`,
      in index order; `None` when any call of the batch reverts (its `Promise.all` rejects). */
  function Survivors(c: Snapshot, address: Address, custodian: Address, ts: seq<TokenId>): Option<seq<LiquidityPosition>>
  {
    if |ts| == 0 then Some([])
    else
      match Survivors(c, address, custodian, ts[..|ts| - 1])
      case None => None
      case Some(ps) =>
        match LoadPosition(c, address, custodian, ts[|ts| - 1])
        case Reverted => None
        case Dropped => Some(ps)
        case Kept(p) => Some(ps + [p])
  }

  function Batch(c: Snapshot, address: Address, custodian: Address): Option<seq<LiquidityPosition>>
  {
    Survivors(c, address, custodian, Held(c, custodian))
  }

  /** The list `load` publishes: both batches flattened, address batch first, then sorted by token id
      under order `o` (`DecimalText` as the code is written, `Numeric` as intended). */
  function Reconcile(o: Order, c: Snapshot, address: Address, staking: Address): Option<seq<LiquidityPosition>>
  {
    match (Batch(c, address, address), Batch(c, address, staking))
    case (Some(mine), Some(deposited)) => Some(Sort(o, mine + deposited))
    case _ => None
  }

  /** A batch is rejected exactly when one of its tokens has no position record. */
  lemma {:induction false} SurvivorsDefined(c: Snapshot, address: Address, custodian: Address, ts: seq<TokenId>)
    ensures Survivors(c, address, custodian, ts).Some? <==> forall i | 0 <= i < |ts| :: ts[i] in c.liquidity
  {
    if |ts| > 0 {
      var init := ts[..|ts| - 1];
      SurvivorsDefined(c, address, custodian, init);
      assert forall i | 0 <= i < |init| :: init[i] == ts[i];
    }
  }

  /** A batch holds exactly the live tokens of `ts` that belong to the address, each tagged with the custodian. */
  lemma {:induction false} SurvivorsMembers(c: Snapshot, address: Address, custodian: Address, ts: seq<TokenId>, p: LiquidityPosition)
    requires Survivors(c, address, custodian, ts).Some?
    ensures p in Survivors(c, address, custodian, ts).value <==>
            p.owner == custodian && p.tokenId in ts && Live(c, p.tokenId) && BelongsTo(c, address, custodian, p.tokenId)
  {
    if |ts| > 0 {
      var init := ts[..|ts| - 1];
      SurvivorsMembers(c, address, custodian, init, p);
      assert ts == init + [ts[|ts| - 1]];
    }
  }

  /** A batch has at most one position per enumerated token. */
  lemma {:induction false} SurvivorsLength(c: Snapshot, address: Address, custodian: Address, ts: seq<TokenId>)
    requires Survivors(c, address, custodian, ts).Some?
    ensures |Survivors(c, address, custodian, ts).value| <= |ts|
  {
    if |ts| > 0 {
      SurvivorsLength(c, address, custodian, ts[..|ts| - 1]);
    }
  }

  /** The reload publishes a list exactly when every enumerated token of both custodians has a position record. */
  lemma ReconcileDefined(o: Order, c: Snapshot, address: Address, staking: Address)
    ensures Reconcile(o, c, address, staking).Some? <==>
            (forall i | 0 <= i < BalanceOf(c, address) :: TokenOfOwnerByIndex(c, address, i) in c.liquidity) &&
            (forall i | 0 <= i < BalanceOf(c, staking) :: TokenOfOwnerByIndex(c, staking, i) in c.liquidity)
  {
    SurvivorsDefined(c, address, address, Held(c, address));
    SurvivorsDefined(c, address, staking, Held(c, staking));
    assert forall i | 0 <= i < BalanceOf(c, address) :: TokenOfOwnerByIndex(c, address, i) == Held(c, address)[i];
    assert forall i | 0 <= i < BalanceOf(c, staking) :: TokenOfOwnerByIndex(c, staking, i) == Held(c, staking)[i];
  }

  /** Who is kept: a live token found under the address, whatever its deposit owner, and a live token
      found under the staking contract whose deposit owner is the address; each carries the custodian
      it was found under as `owner`, never the deposit owner. No published position has zero liquidity. */
  lemma ReconcileMembers(o: Order, c: Snapshot, address: Address, staking: Address, p: LiquidityPosition)
    requires Reconcile(o, c, address, staking).Some?
    ensures p in Reconcile(o, c, address, staking).value <==>
            Live(c, p.tokenId) &&
            ((p.owner == address && p.tokenId in Held(c, address)) ||
             (p.owner == staking && p.tokenId in Held(c, staking) && DepositOf(c, p.tokenId).owner == address))
    ensures p in Reconcile(o, c, address, staking).value ==> c.liquidity[p.tokenId] != 0
  {
    var mine := Batch(c, address, address).value;
    var deposited := Batch(c, address, staking).value;
    SortPermutes(o, mine + deposited);
    assert p in Reconcile(o, c, address, staking).value <==> p in multiset(mine + deposited);
    SurvivorsMembers(c, address, address, Held(c, address), p);
    SurvivorsMembers(c, address, staking, Held(c, staking), p);
  }

  /** The published list is the two batches, address batch first, reordered: with positions of equal
      token id in batch order, no longer than the two balances together, and, under the numeric order,
      ascending by token id. */
  lemma ReconcileOrder(o: Order, c: Snapshot, address: Address, staking: Address)
    requires Reconcile(o, c, address, staking).Some?
    ensures var r := Reconcile(o, c, address, staking).value;
            var batches := Batch(c, address, address).value + Batch(c, address, staking).value;
            && (o == Numeric ==> SortedByTokenId(r))
            && multiset(r) == multiset(batches)
            && (forall t: TokenId :: WithId(r, t) == WithId(batches, t))
            && |r| <= BalanceOf(c, address) + BalanceOf(c, staking)
  {
    var batches := Batch(c, address, address).value + Batch(c, address, staking).value;
    if o == Numeric {
      SortSorted(batches);
    }
    SortPermutes(o, batches);
    forall t: TokenId ensures WithId(Sort(o, batches), t) == WithId(batches, t) {
      SortStable(o, batches, t);
    }
    SurvivorsLength(c, address, address, Held(c, address));
    SurvivorsLength(c, address, staking, Held(c, staking));
  }

  /** The reload as written: an address holding tokens 9 and 10, both live, gets them published as
      10, 9 under the decimal-text order, where the numeric order gives 9, 10. */
  lemma ReconcileAsWrittenMisorders(address: Address, staking: Address)
    requires address != staking
    ensures var c := Snapshot(map[address := [9, 10]], map[9 := 1, 10 := 1], map[], map[], map[], map[], map[]);
            && Reconcile(DecimalText, c, address, staking) == Some([LiquidityPosition(10, address), LiquidityPosition(9, address)])
            && Reconcile(Numeric, c, address, staking) == Some([LiquidityPosition(9, address), LiquidityPosition(10, address)])
  {
    var c := Snapshot(map[address := [9, 10]], map[9 := 1, 10 := 1], map[], map[], map[], map[], map[]);
    var p9, p10 := LiquidityPosition(9, address), LiquidityPosition(10, address);
    assert Held(c, address) == [9, 10];
    assert Held(c, staking) == [];
    var one: seq<TokenId>, two: seq<TokenId> := [9], [9, 10];
    assert two[..1] == one && one[..0] == [];
    assert LiquidityOf(c, 9) == Some(1) && LiquidityOf(c, 10) == Some(1);
    assert LoadPosition(c, address, address, 9) == Kept(p9);
    assert LoadPosition(c, address, address, 10) == Kept(p10);
    assert Survivors(c, address, address, one[..0]) == Some([]);
    assert one[|one| - 1] == 9;
    assert Survivors(c, address, address, one) == Some([] + [p9]);
    assert [] + [p9] == [p9] && [p9] + [p10] == [p9, p10];
    assert two[|two| - 1] == 10;
    assert Survivors(c, address, address, two) == Some([p9] + [p10]);
    assert Batch(c, address, address) == Some([p9, p10]);
    assert Batch(c, address, staking) == Some([]);
    assert [p9, p10] + [] == [p9, p10];
    DecimalTextMisorders(address);
    assert [p9, p10][1..] == [p10];
    assert Sort(Numeric, [p10]) == [p10];
  }

  /** `loadPositions(owner)`: the enumeration over indices and the loop that pushes every non-null result.
      Every index is loaded, as `Promise.all` does; any reverted call rejects the batch. */
  method LoadPositions(c: Snapshot, address: Address, custodian: Address) returns (r: Option<seq<LiquidityPosition>>)
    ensures r == Batch(c, address, custodian)
  {
    var ts := Held(c, custodian);
    var n := BalanceOf(c, custodian);
    var ownerPositions: seq<LiquidityPosition> := [];
    var rejected := false;
    var i := 0;
    while i < n
      invariant 0 <= i <= n
      invariant Survivors(c, address, custodian, ts[..i]) == if rejected then None else Some(ownerPositions)
    {
      var tokenId := TokenOfOwnerByIndex(c, custodian, i);
      assert ts[..i + 1][..i] == ts[..i];
      match LoadPosition(c, address, custodian, tokenId) {
        case Reverted => rejected := true;
        case Dropped =>
        case Kept(position) =>
          if !rejected {
            ownerPositions := ownerPositions + [position];
          }
      }
      i := i + 1;
    }
    assert ts[..n] == ts;
    r := if rejected then None else Some(ownerPositions);
  }

  /** A reload runs only with both contract handles, the address and the current incentive id present. */
  predicate ReloadReady(nft: Option<Handle>, staking: Option<Handle>, address: Option<Address>, currentIncentiveId: Option<string>)
  {
    nft.Some? && staking.Some? && Truthy(address) && Truthy(currentIncentiveId)
  }

  class DataProvider {
    var positions: seq<LiquidityPosition>
    /** `None` is `undefined`, stored for a network without an incentive list. */
    var incentives: Option<seq<Incentive>>
    var currentIncentiveId: Option<string>

    constructor ()
      ensures positions == [] && incentives == Some([]) && currentIncentiveId == None
    {
      positions, incentives, currentIncentiveId := [], Some([]), None;
    }

    /** The `currentIncentive` memo. */
    function CurrentIncentive(): IncentiveDirectory.Memo
      reads this
    {
      IncentiveDirectory.CurrentIncentive(incentives, currentIncentiveId)
    }

    /** The raw state setter handed to the incentive selector: it does not check the id. */
    method SetCurrentIncentiveId(id: string)
      modifies this`currentIncentiveId
      ensures currentIncentiveId == Some(id)
    {
      currentIncentiveId := Some(id);
    }

    /** The "load incentives" effect, run when `network` changes. `threw` is the effect throwing on
        `incentives[0].id`, after the empty list, or undefined for a missing network, was stored. */
    method LoadIncentives(table: map<string, seq<Incentive>>, network: Option<string>) returns (threw: bool)
      modifies this`incentives, this`currentIncentiveId
      ensures var s := IncentiveDirectory.InitialSelection(table, network);
              && threw == s.Throw?
              && incentives == (match s
                                case Skip => old(incentives)
                                case Select(list, _) => Some(list)
                                case Throw(stored) => stored)
              && currentIncentiveId == (if s.Select? then Some(s.currentId) else old(currentIncentiveId))
    {
      threw := false;
      if !Truthy(network) {
        return;
      }
      var stored := IncentiveDirectory.IncentivesFor(table, network.value);
      incentives := stored;
      if stored.None? || |stored.value| == 0 {
        threw := true;
        return;
      }
      currentIncentiveId := Some(stored.value[0].id);
    }

    /** The "load owned and transferred positions" effect. Without its prerequisites, or when a call
        rejects, `positions` keeps its previous value; otherwise it is replaced in one step. */
    method Reload(c: Snapshot, nft: Option<Handle>, staking: Option<Handle>, address: Option<Address>)
      modifies this`positions
      ensures positions ==
              if ReloadReady(nft, staking, address, currentIncentiveId) &&
                 Reconcile(Numeric, c, address.value, staking.value.address).Some?
              then Reconcile(Numeric, c, address.value, staking.value.address).value
              else old(positions)
    {
      if !ReloadReady(nft, staking, address, currentIncentiveId) {
        return;
      }
      var mine := LoadPositions(c, address.value, address.value);
      var deposited := LoadPositions(c, address.value, staking.value.address);
      if mine.Some? && deposited.Some? {
        positions := Sort(Numeric, mine.value + deposited.value);
      }
    }
  }
}
