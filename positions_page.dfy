/** The positions page: the claimable-reward panel (its load, its event subscriptions and their
    teardown, and the claim) and the predicates that enable its buttons. */
module PositionsPage {
  import opened Types
  import opened Chain
  import opened Notifications

  /** Events of the staking contract. */
  datatype EventName = IncentiveCreated | IncentiveEnded | DepositTransferred | TokenStaked | TokenUnstaked | RewardClaimed

  /** A registered listener: the `load` of subscription context `context`, on `event`. Each effect
      run creates its own `load` closure, so the context number tells the closures apart. */
  datatype Listener = Listener(event: EventName, context: nat)

  /** One entry of an effect run's `unsubs` list: the reset of that run's liveness flag, or the
      `off` of one of its listeners. */
  datatype Unsub = MarkUnmounted(context: nat) | Off(listener: Listener)

  /** The state one effect run closes over: its own `isMounted` flag, and the reward token and the
      account its `load` reads. */
  datatype Context = Context(isMounted: bool, rewardToken: Address, account: Address)

  /** The Claim button is disabled while a claim runs or when nothing is claimable. */
  function ClaimDisabled(isClaiming: bool, reward: nat): (disabled: bool)
    ensures disabled <==> isClaiming || reward == 0
  {
    isClaiming || reward == 0
  }

  /** The Claim button reads "Claiming..." while a claim runs and "Claim" otherwise. */
  function ClaimButtonText(isClaiming: bool): (text: string)
    ensures isClaiming <==> text == "Claiming..."
    ensures !isClaiming <==> text == "Claim"
  {
    if isClaiming then "Claiming..." else "Claim"
  }

  /** A row's Withdraw button is disabled exactly when the position was found under the address itself
      (it is not in the staking contract's custody). */
  function WithdrawDisabled(position: LiquidityPosition, address: Option<Address>): (disabled: bool)
    ensures disabled <==> address == Some(position.owner)
  {
    address.Some? && position.owner == address.value
  }

  /** The incentive selector is rendered only for a truthy current incentive id. */
  function ShowsIncentiveSelector(currentIncentiveId: Option<string>): (shown: bool)
    ensures shown <==> currentIncentiveId.Some? && currentIncentiveId.value != ""
  {
    Truthy(currentIncentiveId)
  }

  /** `off(event, listener)`: removes the first registration of that listener, as ethers does. */
  function Without(s: seq<Listener>, l: Listener): seq<Listener>
  {
    if |s| == 0 then []
    else if s[0] == l then s[1..]
    else [s[0]] + Without(s[1..], l)
  }

  /** The listeners the `Off` entries of `unsubs` detach. */
  function Offs(unsubs: seq<Unsub>): multiset<Listener>
  {
    if |unsubs| == 0 then multiset{}
    else
      var earlier := Offs(unsubs[..|unsubs| - 1]);
      match unsubs[|unsubs| - 1]
      case MarkUnmounted(_) => earlier
      case Off(l) => earlier + multiset{l}
  }

  /** The listeners left after running, in order, the `off` of every `Off` entry of `unsubs`. */
  function Detach(listeners: seq<Listener>, unsubs: seq<Unsub>): seq<Listener>
  {
    if |unsubs| == 0 then listeners
    else
      var earlier := Detach(listeners, unsubs[..|unsubs| - 1]);
      match unsubs[|unsubs| - 1]
      case MarkUnmounted(_) => earlier
      case Off(l) => Without(earlier, l)
  }

  /** One `off` removes one registration of the listener, if there is one, and nothing else. */
  lemma {:induction false} WithoutRemovesOne(s: seq<Listener>, l: Listener)
    ensures multiset(Without(s, l)) == multiset(s) - multiset{l}
  {
    if |s| > 0 {
      assert s == [s[0]] + s[1..];
      if s[0] != l {
        WithoutRemovesOne(s[1..], l);
      }
    }
  }

  lemma {:induction false} WithoutKeeps(s: seq<Listener>, l: Listener)
    ensures forall x | x in Without(s, l) :: x in s
  {
    if |s| > 0 && s[0] != l {
      WithoutKeeps(s[1..], l);
    }
  }

  /** Running the unsubscribers removes one registration per `Off` entry, and nothing else. */
  lemma {:induction false} DetachRemovesOffs(listeners: seq<Listener>, unsubs: seq<Unsub>)
    ensures multiset(Detach(listeners, unsubs)) == multiset(listeners) - Offs(unsubs)
  {
    if |unsubs| > 0 {
      var init := unsubs[..|unsubs| - 1];
      DetachRemovesOffs(listeners, init);
      match unsubs[|unsubs| - 1]
      case MarkUnmounted(_) =>
      case Off(l) =>
        WithoutRemovesOne(Detach(listeners, init), l);
    }
  }

  lemma {:induction false} WithoutAfter(s: seq<Listener>, t: seq<Listener>, l: Listener)
    requires l !in s
    ensures Without(s + t, l) == s + Without(t, l)
  {
    if |s| == 0 {
      assert s + t == t;
    } else {
      assert (s + t)[1..] == s[1..] + t;
      WithoutAfter(s[1..], t, l);
    }
  }

  /** The unsubscribers the mount of context `g` registers. */
  function MountUnsubs(g: nat): seq<Unsub>
  {
    [MarkUnmounted(g), Off(Listener(TokenUnstaked, g)), Off(Listener(RewardClaimed, g))]
  }

  /** A mount followed by its cleanup gives back exactly the listeners that were there before, when
      none of them belongs to the new context. */
  lemma MountThenCleanupRestores(listeners: seq<Listener>, g: nat)
    requires Listener(TokenUnstaked, g) !in listeners && Listener(RewardClaimed, g) !in listeners
    ensures Detach(listeners + [Listener(TokenUnstaked, g), Listener(RewardClaimed, g)], MountUnsubs(g)) == listeners
  {
    var tu, rc := Listener(TokenUnstaked, g), Listener(RewardClaimed, g);
    var l := listeners + [tu, rc];
    var us := MountUnsubs(g);
    assert us[..2][..1] == [MarkUnmounted(g)];
    assert us[..1][..0] == [];
    assert Detach(l, us[..1]) == l;
    WithoutAfter(listeners, [tu, rc], tu);
    assert Without([tu, rc], tu) == [rc];
    assert Detach(l, us[..2]) == listeners + [rc];
    WithoutAfter(listeners, [rc], rc);
    assert Without([rc], rc) == [];
  }

  /** What one `load` of a context leaves as the reward: it commits only while the context is mounted. */
  function Committed(c: Snapshot, ctx: Context, reward: nat): nat
  {
    if ctx.isMounted then Rewards(c, ctx.rewardToken, ctx.account) else reward
  }

  /** The reward after event `e` reaches, in registration order, every listener of `ls` on `e`. */
  function Delivered(ls: seq<Listener>, e: EventName, c: Snapshot, contexts: seq<Context>, reward: nat): nat
    requires forall i | 0 <= i < |ls| :: ls[i].context < |contexts|
  {
    if |ls| == 0 then reward
    else
      var before := Delivered(ls[..|ls| - 1], e, c, contexts, reward);
      var l := ls[|ls| - 1];
      if l.event == e then Committed(c, contexts[l.context], before) else before
  }

  /** A cleaned-up context never commits: when every listener on `e` belongs to an unmounted context,
      delivering `e` leaves the reward as it was. */
  lemma {:induction false} DeliveredToUnmountedKeeps(ls: seq<Listener>, e: EventName, c: Snapshot, contexts: seq<Context>, reward: nat)
    requires forall i | 0 <= i < |ls| :: ls[i].context < |contexts|
    requires forall i | 0 <= i < |ls| :: ls[i].event == e ==> !contexts[ls[i].context].isMounted
    ensures Delivered(ls, e, c, contexts, reward) == reward
  {
    if |ls| > 0 {
      DeliveredToUnmountedKeeps(ls[..|ls| - 1], e, c, contexts, reward);
    }
  }

  /** An event nobody listens to leaves the reward as it was. */
  lemma {:induction false} DeliveredUnheardKeeps(ls: seq<Listener>, e: EventName, c: Snapshot, contexts: seq<Context>, reward: nat)
    requires forall i | 0 <= i < |ls| :: ls[i].context < |contexts|
    requires forall i | 0 <= i < |ls| :: ls[i].event != e
    ensures Delivered(ls, e, c, contexts, reward) == reward
  {
    if |ls| > 0 {
      DeliveredUnheardKeeps(ls[..|ls| - 1], e, c, contexts, reward);
    }
  }

  class ClaimAvailableReward {
    var reward: nat
    var isClaiming: bool
    /** Every subscription context an effect run has created, numbered in creation order. */
    var contexts: seq<Context>
    /** The `unsubs` list of the latest effect run, which its cleanup runs. */
    var unsubs: seq<Unsub>
    /** The `load` closures registered on the staking contract, in registration order. */
    var listeners: seq<Listener>
    /** Whether `isClaiming` was set while the last claim's calls were pending. */
    ghost var claimingWhilePending: bool

    /** Every listener and every unsubscriber belongs to a context that exists. */
    ghost predicate Valid()
      reads this
    {
      && (forall i | 0 <= i < |listeners| :: listeners[i].context < |contexts|)
      && (forall i | 0 <= i < |unsubs| :: (if unsubs[i].MarkUnmounted? then unsubs[i].context else unsubs[i].listener.context) < |contexts|)
    }

    constructor ()
      ensures Valid()
      ensures reward == 0 && !isClaiming && contexts == [] && unsubs == [] && listeners == []
    {
      reward, isClaiming, contexts, unsubs, listeners := 0, false, [], [], [];
      claimingWhilePending := false;
    }

    /** The completion of context `g`'s `load`: it commits the reward only while `g` is still mounted. */
    method Load(c: Snapshot, g: nat)
      requires g < |contexts|
      modifies this`reward
      ensures reward == Committed(c, contexts[g], old(reward))
      ensures !contexts[g].isMounted ==> reward == old(reward)
    {
      if contexts[g].isMounted {
        reward := Rewards(c, contexts[g].rewardToken, contexts[g].account);
      }
    }

    /** The effect body: with the staking contract, the current incentive and the address it starts a
        new context (its own liveness flag and the reset of it), starts that context's `load` and listens
        to `TokenUnstaked` and `RewardClaimed` with it, registering an `off` for each. The first `load` is
        not awaited: its completion is a later `Load(c, g)`, which commits nothing once the context has
        been cleaned up. Earlier contexts are left exactly as they were. */
    method Mount(staking: Option<Handle>, currentIncentive: Option<Incentive>, address: Option<Address>)
      requires Valid()
      modifies this`contexts, this`unsubs, this`listeners
      ensures Valid()
      ensures if staking.Some? && currentIncentive.Some? && Truthy(address)
              then var g := |old(contexts)|;
                   var token := currentIncentive.value.key.rewardToken;
                   && contexts == old(contexts) + [Context(true, token, address.value)]
                   && unsubs == MountUnsubs(g)
                   && listeners == old(listeners) + [Listener(TokenUnstaked, g), Listener(RewardClaimed, g)]
                   && Detach(listeners, unsubs) == old(listeners)
              else && contexts == old(contexts) && unsubs == old(unsubs)
                   && listeners == old(listeners)
    {
      if !(staking.Some? && currentIncentive.Some? && Truthy(address)) {
        return;
      }
      var g := |contexts|;
      contexts := contexts + [Context(true, currentIncentive.value.key.rewardToken, address.value)];
      unsubs := [MarkUnmounted(g)];
      listeners := listeners + [Listener(TokenUnstaked, g)];
      unsubs := unsubs + [Off(Listener(TokenUnstaked, g))];
      listeners := listeners + [Listener(RewardClaimed, g)];
      unsubs := unsubs + [Off(Listener(RewardClaimed, g))];
      MountThenCleanupRestores(old(listeners), g);
    }

    /** A contract event: every listener registered on it runs its context's `load`, in registration
        order; any other event does nothing. */
    method OnEvent(e: EventName, c: Snapshot) returns (reloaded: bool)
      requires Valid()
      modifies this`reward
      ensures reloaded <==> exists i | 0 <= i < |listeners| :: listeners[i].event == e
      ensures reward == Delivered(listeners, e, c, contexts, old(reward))
    {
      reloaded := false;
      var i := 0;
      while i < |listeners|
        invariant 0 <= i <= |listeners|
        invariant reward == Delivered(listeners[..i], e, c, contexts, old(reward))
        invariant reloaded <==> exists j | 0 <= j < i :: listeners[j].event == e
      {
        assert listeners[..i + 1][..i] == listeners[..i];
        if listeners[i].event == e {
          Load(c, listeners[i].context);
          reloaded := true;
        }
        i := i + 1;
      }
      assert listeners[..i] == listeners;
    }

    /** The effect cleanup: runs every unsubscriber of the latest run in turn. Only the contexts it names
        become unmounted, and a context once unmounted stays so. */
    method Cleanup()
      requires Valid()
      modifies this`contexts, this`listeners
      ensures Valid()
      ensures listeners == Detach(old(listeners), unsubs)
      ensures multiset(listeners) == multiset(old(listeners)) - Offs(unsubs)
      ensures |contexts| == |old(contexts)|
      ensures forall g | 0 <= g < |contexts| ::
                contexts[g] == old(contexts[g]).(isMounted := old(contexts[g].isMounted) && MarkUnmounted(g) !in unsubs)
    {
      var i := 0;
      ghost var start := listeners;
      ghost var before := contexts;
      while i < |unsubs|
        invariant 0 <= i <= |unsubs|
        invariant listeners == Detach(start, unsubs[..i])
        invariant forall k | 0 <= k < |listeners| :: listeners[k].context < |before|
        invariant |contexts| == |before|
        invariant forall g | 0 <= g < |contexts| ::
                    contexts[g] == before[g].(isMounted := before[g].isMounted && MarkUnmounted(g) !in unsubs[..i])
      {
        assert unsubs[..i + 1][..i] == unsubs[..i];
        assert unsubs[..i + 1] == unsubs[..i] + [unsubs[i]];
        match unsubs[i] {
          case MarkUnmounted(g) => contexts := contexts[g := contexts[g].(isMounted := false)];
          case Off(l) =>
            ghost var prev := listeners;
            WithoutKeeps(prev, l);
            listeners := Without(listeners, l);
            forall k | 0 <= k < |listeners| ensures listeners[k].context < |before| {
              assert listeners[k] in prev;
            }
        }
        i := i + 1;
      }
      assert unsubs[..i] == unsubs;
      DetachRemovesOffs(start, unsubs);
    }

    /** `claim`: with the staking contract and the current incentive, read the claimable amount for the
        reward token and the address, then claim exactly that amount through `tx`; `isClaiming` is set
        meanwhile and cleared however it ends. Reading with a null address throws, and is caught. */
    method Claim(n: NotificationsProvider, c: Snapshot, staking: Option<Handle>, currentIncentive: Option<Incentive>,
                 address: Option<Address>, outcome: TxOutcome) returns (call: Option<Call>)
      modifies this`isClaiming, this`claimingWhilePending, n
      ensures staking.Some? && currentIncentive.Some? ==> !isClaiming
      ensures !(staking.Some? && currentIncentive.Some?) ==>
              call == None && n.queue == old(n.queue) && claimingWhilePending == old(claimingWhilePending) &&
              isClaiming == old(isClaiming)
      ensures staking.Some? && currentIncentive.Some? ==> claimingWhilePending
      ensures staking.Some? && currentIncentive.Some? && !Truthy(address) ==> call == None && n.queue == old(n.queue)
      ensures staking.Some? && currentIncentive.Some? && Truthy(address) ==>
              var token := currentIncentive.value.key.rewardToken;
              && call == Some(ClaimRewardCall(token, address.value, Rewards(c, token, address.value)))
              && n.queue == old(n.queue) + TxTrace("Claiming...", "Claimed!", outcome)
    {
      if !(staking.Some? && currentIncentive.Some?) {
        call := None;
        return;
      }
      isClaiming := true;
      claimingWhilePending := true;
      if !Truthy(address) {
        call := None;
      } else {
        var token := currentIncentive.value.key.rewardToken;
        var amount := Rewards(c, token, address.value);
        call := Some(ClaimRewardCall(token, address.value, amount));
        var _ := n.Tx("Claiming...", "Claimed!", outcome);
      }
      isClaiming := false;
    }
  }
}
