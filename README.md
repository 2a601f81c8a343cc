# Uniswap V3 staker front end: a Dafny model of its client-side logic

This project models the client-side logic of a web front end for a Uniswap V3 liquidity-mining
staker. A wallet holds liquidity positions. These are NFTs of the position registry (the
non-fungible position manager). To earn rewards, the wallet approves the staking contract for a
token, transfers the token to it, and stakes it under an *incentive*, which is one reward
programme. Later it unstakes the token and withdraws it. The front end reconciles which positions
belong to the connected address. Some positions the address still holds itself. Others sit with
the staking contract but record the address as their depositor. The front end also drives the
stake and withdraw steppers, shows and claims rewards, and sequences transaction notices.

Every contract read becomes a lookup in an immutable `Chain.Snapshot`. A missing entry in
`liquidity`, `owners` or `approved` is a reverted call. A missing deposit reads as the zero record,
whose owner is the zero address. A missing `getRewardInfo` entry reverts. A missing `rewards` entry
reads as 0.

Component state becomes a class. Each React effect is a method the caller invokes, and every
transaction's outcome is a parameter (`TxOutcome`). The browser's local storage is the in-memory
`Cache.Store`. The incentive table is a parameter of type `map<string, seq<Incentive>>`.

Modules follow the source files:

- `Types`: the records of the app's type file, nullable values, and JavaScript truthiness.
- `Config`: network names, the storage key and the per-network addresses.
- `Chain`: the contract snapshot.
- `IncentiveDirectory`: the current-incentive lookup and the selection made when a network appears.
- `OrderBy`: the stable sort behind `orderBy(..., 'tokenId')`.
- The rest are one module per component or hook: `DataContext`, `ContractsContext`,
  `Notifications`, `StakeModal`, `WithdrawModal`, `PositionReward`, `PositionsPage`, `Wallet`,
  `Cache`, `BigNumberFormat`, `ConnectWallet`, `Header`, `NotificationView` and `Nav`.

Behaviour of the code worth noting:

- `setCurrentIncentiveId` is the raw state setter. It does not check that the id is in the list.
- A network whose incentive list is missing or empty makes the load-incentives effect throw on
  `incentives[0].id`. This happens after the list is stored: `undefined` for a network the table
  lacks, the empty list for an empty entry. The current id is left as it was; it is not set to null.
  With `undefined` stored, a truthy current id then makes the `currentIncentive` memo throw too.
- Incremental patching of positions from contract events does not happen in the code, so it is not
  modelled. Only the claim panel reloads its reward on events.

## Model

| member | source | states |
|---|---|---|
| `IncentiveDirectory.Find` | src/contexts/data.tsx:50-51 | none exactly when no incentive carries the id; otherwise the first incentive that does |
| `IncentiveDirectory.CurrentIncentive` | src/contexts/data.tsx:46-53 | null for a falsy id; throws iff the id is truthy and the stored list is undefined; present iff the id is truthy, a list is stored and some incentive in it carries the id, and then it is the first such incentive |
| `IncentiveDirectory.InitialSelection` | src/contexts/data.tsx:56-61 | skipped iff the network is falsy; selects the id of the first entry of the network's list when it has one; throws iff the network has no entry or an empty one, after storing undefined for a missing entry and the empty list for an empty one |
| `IncentiveDirectory.SelectionResolves` | src/contexts/data.tsx:58-60 | the id chosen on network load resolves to the first stored incentive (unless that id is the empty string) |
| `IncentiveDirectory.MissingNetworkCrashesMemo` | src/contexts/data.tsx:46-61 | for a network the table lacks, undefined is stored and the effect throws; a truthy id left from before then makes the memo throw |
| `OrderBy.SortPermutes` | src/contexts/data.tsx:114 | sorting keeps the same positions: equal multisets and equal length |
| `OrderBy.SortStable` | src/contexts/data.tsx:114 | the positions of each token id keep their input order (the sort is stable) |
| `OrderBy.SortSorted` | src/contexts/data.tsx:114 | under numeric order the result is ascending by token id |
| `OrderBy.DecimalTextMisorders` | src/contexts/data.tsx:114 | under decimal-text order, tokens 9 and 10 come out as 10, 9, which is not ascending by token id |
| `DataContext.LoadPosition` | src/contexts/data.tsx:91-109 | reverts iff the token has no position record; kept iff its liquidity is non-zero and it was found under the address or its deposit owner is the address; a kept position is tagged with the custodian it was found under |
| `DataContext.SurvivorsDefined` | src/contexts/data.tsx:75-81 | a custodian's batch is rejected exactly when one of its enumerated tokens has no position record |
| `DataContext.SurvivorsMembers` | src/contexts/data.tsx:82-87 | a batch holds exactly the enumerated live tokens that belong to the address, each tagged with the custodian |
| `DataContext.SurvivorsLength` | src/contexts/data.tsx:82-88 | a batch is never longer than the custodian's enumeration |
| `DataContext.ReconcileDefined` | src/contexts/data.tsx:111-115 | under either order, the reload publishes a list iff every token enumerated under either custodian has a position record |
| `DataContext.ReconcileMembers` | src/contexts/data.tsx:91-115 | under either order, a position is published iff it is live and either found under the address, or found under the staking contract with the address as deposit owner; `owner` is always the custodian, and no published position has zero liquidity |
| `DataContext.ReconcileOrder` | src/contexts/data.tsx:111-115 | under either order the published list is a permutation of the two batches concatenated address-first, keeps batch order among equal ids, and is no longer than the two balances together; under the numeric order it is ascending by token id |
| `DataContext.ReconcileAsWrittenMisorders` | src/contexts/data.tsx:111-115 | with tokens 9 and 10 held by the address, the decimal-text order of the code as written publishes 10, 9, and the numeric order 9, 10 |
| `DataContext.LoadPositions` | src/contexts/data.tsx:75-89 | the index loop with its push filter yields exactly the batch (or the rejection) the specification function defines |
| `DataContext.DataProvider.SetCurrentIncentiveId` | src/contexts/data.tsx:40-42 | the current id becomes the given id, unchecked |
| `DataContext.DataProvider.LoadIncentives` | src/contexts/data.tsx:56-61 | the stored list (undefined for a network the table lacks), the current id and whether the effect throws all follow the initial selection; a skipped effect changes nothing |
| `DataContext.DataProvider.Reload` | src/contexts/data.tsx:64-123 | with both handles, the address and the current id present and no reverted call, positions become the list reconciled under the numeric order; otherwise they keep their previous value |
| `ContractsContext.DerivedAddress` | src/contexts/contracts.tsx:59-66 | null without a network and undefined for a network the table lacks (both `None`); otherwise the table's address |
| `ContractsContext.ContractHandle` | src/contexts/contracts.tsx:73-95 | a handle exists iff the address is non-empty and a signer exists, and it is bound to that address |
| `ContractsContext.HandlesNeedNetworkAndSigner` | src/contexts/contracts.tsx:59-83 | any handle implies a network and a signer; on a supported network the registry handle uses the configured address |
| `ContractsContext.StakingHandleByNetwork` | src/config.tsx:30-33 | the mainnet staking address is empty, so there is never a mainnet staking handle; on rinkeby the handle uses the configured address |
| `ContractsContext.LoadUnstakedTokens` | src/contexts/contracts.tsx:118-139 | one token per index of the balance, the i-th being the registry's i-th token of the address, unfiltered |
| `ContractsContext.DepositedByMembers` | src/contexts/contracts.tsx:164-169 | the staked list holds exactly the enumerated tokens whose deposit owner is the address |
| `ContractsContext.DepositedByLength` | src/contexts/contracts.tsx:164-169 | the staked list is never longer than the staking contract's enumeration |
| `ContractsContext.DepositedByAppend` | src/contexts/contracts.tsx:165-168 | the filter keeps enumeration order: filtering two consecutive runs gives the two filtered runs in turn |
| `ContractsContext.LoadStakedTokens` | src/contexts/contracts.tsx:157-186 | the loop pushes exactly the staking contract's tokens deposited by the address, in index order |
| `ContractsContext.ContractsProvider.SetCurrentIncentiveId` | src/contexts/contracts.tsx:55-57 | the current id becomes the given id, unchecked |
| `ContractsContext.ContractsProvider.LoadIncentives` | src/contexts/contracts.tsx:107-112 | as the data context's effect: list, current id and throw follow the initial selection |
| `ContractsContext.ContractsProvider.LoadUnstaked` | src/contexts/contracts.tsx:115-142 | with the registry handle, the address and a current id, the unstaked list becomes every token the address holds; otherwise it is unchanged |
| `ContractsContext.ContractsProvider.LoadStaked` | src/contexts/contracts.tsx:145-195 | with both handles, the address, the staking address and a current id, the staked list becomes the tokens deposited by the address; otherwise it is unchanged |
| `Notifications.FirstTruthy` | src/contexts/notifications.tsx:33 | with a truthy candidate the result is the first truthy one, ahead of every later candidate; with none it is the fallback |
| `Notifications.ErrorMessage` | src/contexts/notifications.tsx:33 | the error notice's text is the first truthy one of the nested error message, the response text and the message, else the thrown value itself |
| `Notifications.TxTraceShape` | src/contexts/notifications.tsx:54-68 | a mined transaction gives a start and an end notice with the same hash and no error; a failed submission gives only an error notice; a failed wait gives the start notice, then an error notice; all persist, and there is an error notice exactly when the error is rethrown |
| `Notifications.NotificationsProvider.ShowTxNotification` | src/contexts/notifications.tsx:20-27 | appends one persistent transaction notice with the description and hash |
| `Notifications.NotificationsProvider.ShowErrorNotification` | src/contexts/notifications.tsx:29-39 | appends one persistent error notice carrying the selected message |
| `Notifications.NotificationsProvider.ShowSuccessNotification` | src/contexts/notifications.tsx:41-51 | appends one persistent success notice with title and message |
| `Notifications.NotificationsProvider.Tx` | src/contexts/notifications.tsx:54-68 | the queue grows by exactly the trace of the outcome, and the error is rethrown exactly when submission or confirmation failed |
| `StakeModal.ResumeStep` | src/modals/StakeModal.tsx:62-66 | step 2 when the staking contract owns the token, else 1 when it is approved, else the current step |
| `StakeModal.ActionAt` | src/modals/StakeModal.tsx:73-84 | steps 0, 1 and 2 run approve, transfer and stake; any other step runs nothing |
| `StakeModal.StepAfter` | src/modals/StakeModal.tsx:96-166 | a mined approve moves to step 1, a mined transfer to step 2; a stake or any failure leaves the step |
| `StakeModal.StepsStayInRange` | src/modals/StakeModal.tsx:51-167 | from a step in the list, resuming and every action stay in the list, and every such step has an action |
| `Types.StepButtonLabel` | src/modals/StakeModal.tsx:218 | both steppers' button (here and at src/modals/WithdrawModal.tsx:93) shows the working label while it is set, else the active step's name |
| `StakeModal.StakeStepper.LoadApproval` | src/modals/StakeModal.tsx:54-69 | with both handles and neither read reverting, the step is the resumed step; otherwise unchanged |
| `StakeModal.StakeStepper.Perform` | src/modals/StakeModal.tsx:86-167 | when the action's guard holds, it submits the action's call through the transaction helper with the action's labels, advances the step per the outcome, shows the working label while pending and clears it at the end; otherwise nothing changes |
| `StakeModal.StakeStepper.ApproveOrTransferOrStake` | src/modals/StakeModal.tsx:73-84 | runs the action of the active step, with the effects of that action |
| `WithdrawModal.ResumeStep` | src/modals/WithdrawModal.tsx:44-48 | step 1 when the deposit has no stakes, else the current step |
| `WithdrawModal.ActionAt` | src/modals/WithdrawModal.tsx:55-64 | step 0 unstakes, step 1 withdraws, any other step does nothing |
| `WithdrawModal.WithdrawStepper.LoadStakes` | src/modals/WithdrawModal.tsx:40-51 | with the staking handle and a current id, the step follows the deposit's stake count; otherwise unchanged |
| `WithdrawModal.WithdrawStepper.UnstakeOrWithdraw` | src/modals/WithdrawModal.tsx:55-64 | a completed unstake moves to step 1; a completed withdraw navigates to '/'; nothing else changes |
| `PositionReward.PositionRewardHook.Load` | src/hooks/usePositionReward.tsx:9-21 | queries only with the staking handle and an incentive; the reward becomes the first field of a successful answer and is kept on a revert |
| `PositionsPage.ClaimDisabled` | src/pages/Positions.tsx:329 | disabled iff a claim is running or the reward is zero |
| `PositionsPage.WithdrawDisabled` | src/pages/Positions.tsx:231 | disabled iff the position was found under the connected address itself |
| `PositionsPage.ShowsIncentiveSelector` | src/pages/Positions.tsx:108 | the selector shows iff the current incentive id is truthy |
| `PositionsPage.ClaimButtonText` | src/pages/Positions.tsx:331 | the button reads "Claiming..." iff a claim is running, and "Claim" otherwise |
| `PositionsPage.WithoutRemovesOne` | src/pages/Positions.tsx:276-283 | one `off` removes exactly one registration of that listener when there is one, and nothing else |
| `PositionsPage.DetachRemovesOffs` | src/pages/Positions.tsx:289-291 | running the unsubscribers removes one registration per detach entry and keeps every other listener |
| `PositionsPage.MountThenCleanupRestores` | src/pages/Positions.tsx:254-291 | a mount of a new context followed by its cleanup gives back exactly the listeners there were before, in order |
| `PositionsPage.DeliveredToUnmountedKeeps` | src/pages/Positions.tsx:257-269 | when every listener on an event belongs to a cleaned-up context, delivering the event leaves the reward unchanged |
| `PositionsPage.DeliveredUnheardKeeps` | src/pages/Positions.tsx:272-283 | an event no listener is registered on leaves the reward unchanged |
| `PositionsPage.ClaimAvailableReward.Load` | src/pages/Positions.tsx:264-270 | a context's load commits the read reward only while that context is still mounted, and a cleaned-up context's load changes nothing |
| `PositionsPage.ClaimAvailableReward.Mount` | src/pages/Positions.tsx:254-288 | with the staking handle, an incentive and an address it creates a new mounted context, leaving earlier ones as they were, and registers that context's load on TokenUnstaked and RewardClaimed, with a liveness reset and one detach per listener whose running restores the previous listeners; the reward is left as it was, since the first load is not awaited; otherwise nothing changes |
| `PositionsPage.ClaimAvailableReward.OnEvent` | src/pages/Positions.tsx:272-283 | an event runs the load of every listener registered on it, in registration order, and reloads iff there is one |
| `PositionsPage.ClaimAvailableReward.Cleanup` | src/pages/Positions.tsx:289-291 | runs every unsubscriber of the latest run: exactly the contexts it names become unmounted, unmounted contexts stay so, and one registration per detach entry is removed |
| `PositionsPage.ClaimAvailableReward.Claim` | src/pages/Positions.tsx:294-315 | without the staking handle or an incentive nothing happens; otherwise it claims exactly the readable reward for the reward token and the address through the transaction helper, holding the claiming flag meanwhile and clearing it however it ends; a null address submits nothing |
| `Wallet.NormalizeNetwork` | src/contexts/wallet.tsx:55 | "homestead" becomes "mainnet"; every other name is unchanged |
| `Wallet.ConnectionTagDrivesReconnect` | src/contexts/wallet.tsx:65-93 | after a disconnect nothing reconnects; after a connect, a session without an address reconnects |
| `Wallet.ReconnectNeedsKnownTagAndNoAddress` | src/contexts/wallet.tsx:81-89 | an unknown cached tag never reconnects, and neither does a session that has an address |
| `Wallet.WalletSession.StartConnecting` | src/contexts/wallet.tsx:34-36 | the connecting flag becomes true |
| `Wallet.WalletSession.StopConnecting` | src/contexts/wallet.tsx:37-39 | the connecting flag becomes false |
| `Wallet.WalletSession.SetProvider` | src/contexts/wallet.tsx:41-63 | the network is the normalised provider network, the signer and address are the provider's account, and connecting ends |
| `Wallet.WalletSession.ConnectMetamask` | src/contexts/wallet.tsx:65-70 | without an injected provider or when enabling is refused nothing changes; otherwise "metamask" is stored under the wallet key and the provider is set |
| `Wallet.WalletSession.Disconnect` | src/contexts/wallet.tsx:72-77 | the wallet key is removed and signer, address and network become null |
| `Wallet.WalletSession.AutoReconnect` | src/contexts/wallet.tsx:79-93 | reconnects iff no address is set and the cached tag is "metamask"; otherwise nothing changes; a reconnect without a provider or with enabling refused changes nothing, and a completed one stores "metamask" again and sets the provider |
| `Cache.Read` | src/utils/cache.ts:7-12 | an absent key reads as null, and a read never yields undefined |
| `Cache.Write` | src/utils/cache.ts:3-5 | null removes the key; any other value stores it; every other key is untouched |
| `Cache.ParseStoredText` | src/utils/cache.ts:5-9 | the stored text of null, a boolean or any string parses back to the same value |
| `Cache.WriteThenRead` | src/utils/cache.ts:3-12 | writing a value and reading it gives the value back; after writing null or undefined the read gives null |
| `Cache.ParseSurrogatePair` | src/utils/cache.ts:9 | a string escape of a surrogate pair decodes to the one character it encodes |
| `Cache.UndefinedTextUnparsable` | src/utils/cache.ts:5-12 | the text stored for undefined does not parse |
| `Cache.UnparsableReadsNull` | src/utils/cache.ts:10-12 | stored text that does not parse reads as null |
| `Cache.WriteLeavesOtherKeys` | src/utils/cache.ts:4-5 | a write leaves the reading of every other key unchanged |
| `Cache.Store.Cache` | src/utils/cache.ts:1-17 | one argument reads, two arguments write and return undefined, more arguments return undefined and change nothing |
| `BigNumberFormat.DecimalDenotes` | src/utils/big-number.ts:23-25 | the decimal text of an integer denotes that integer |
| `BigNumberFormat.ToBigNumber` | src/utils/big-number.ts:23-25 | converting through the decimal text loses nothing |
| `BigNumberFormat.ToFixed` | src/utils/big-number.ts:5-12 | "0" iff either operand is zero; otherwise the quotient formatted with the given precision, defaulting to 4 |
| `BigNumberFormat.FormatUnits` | src/utils/big-number.ts:14-21 | "" when the decimals are null or zero; otherwise toFixed by ten to the decimals |
| `BigNumberFormat.ZeroFormatsAsZero` | src/utils/big-number.ts:5-21 | a zero amount formats as "0" for any non-zero decimals |
| `BigNumberFormat.FormatUnitsScalesDown` | src/utils/big-number.ts:14-21 | an amount of x whole tokens, held as x times ten to the decimals base units, shows as x |
| `BigNumberFormat.FormatUnitsOfInteger` | src/utils/big-number.ts:14-25 | an integer amount of base units formats as that integer divided by ten to the decimals, read exactly |
| `ConnectWallet.DialogFor` | src/components/global/ConnectWallet.tsx:48-111 | closed iff the network is correct and no connection is in progress; the wrong-network prompt shows iff the network is incorrect |
| `ConnectWallet.CorrectNetworks` | src/components/global/ConnectWallet.tsx:48-51 | a network is correct iff it is null, empty, "mainnet" or "rinkeby" |
| `ConnectWallet.PromptText` | src/components/global/ConnectWallet.tsx:104 | the prompt reads "Please connect to mainnet or rinkeby." |
| `Header.ShortAddress` | src/components/global/Header.tsx:27-28 | null stays null and the empty address stays empty; otherwise the first six characters, "....", and the last four |
| `Header.ShortAddressShape` | src/components/global/Header.tsx:28 | for an address of ten or more characters the result has length 14, starts with the first six characters, has "...." in the middle and ends with the last four |
| `Header.ShortAddressOfShortText` | src/components/global/Header.tsx:28 | an address of at most four characters appears whole on both sides of the separator |
| `Header.View` | src/components/global/Header.tsx:37-51 | the connected view (short address and network) shows iff the address is truthy; otherwise the connect button |
| `NotificationView.ExplorerUrlByNetwork` | src/components/shared/Notification.tsx:101-110 | on mainnet the link is https://etherscan.io/tx/ and the hash; on another network n it is https://n.etherscan.io/tx/ and the hash |
| `NotificationView.ContentFor` | src/components/shared/Notification.tsx:62-68 | a content component exists iff the type is tx, error or success |
| `NotificationView.ClassFor` | src/components/shared/Notification.tsx:70-77 | a class exists for exactly the types that have a content component |
| `NotificationView.Render` | src/components/shared/Notification.tsx:58-142 | a notification renders iff its type is supported |
| `NotificationView.EnqueuedRenders` | src/components/shared/Notification.tsx:95-142 | every notification the context enqueues renders in its own class: a transaction shows its description and explorer link, an error its message, a success its title then its message |
| `NotificationView.OtherKindsUnsupported` | src/components/shared/Notification.tsx:68-76 | any other type has neither content nor class |
| `NotificationView.Dismiss` | src/components/shared/Notification.tsx:59-60 | closing removes exactly the notification with that id and keeps every other |
| `Nav.IndexOf` | src/components/global/Nav.tsx:36 | -1 iff the text does not occur in the path; otherwise its first occurrence |
| `Nav.Tabs` | src/components/global/Nav.tsx:42-57 | two tabs, linking to '/stake' and '/unstake' |
| `Nav.ExactlyOneTabActive` | src/components/global/Nav.tsx:36-37 | the Unstake tab is active iff "unstake" occurs in the path, and exactly one tab is active |
| `Nav.LinksSelectTheirTab` | src/components/global/Nav.tsx:43-51 | the unstake link's path selects the Unstake tab, and the stake link's path the Stake tab |

## Left out

- The position hook `usePosition` (unstake, withdraw and its working label) is not part of this
  model. Its `isWorking` label is a parameter of `Types.StepButtonLabel`. Whether it called its
  continuation is the `continued` parameter of `UnstakeOrWithdraw`.
- React scheduling and dependency tracking are left out. Each effect is a method the caller
  invokes when the effect would run.
- Asynchronous interleaving is left out. A `Promise.all` fan-out becomes a sequential loop, and a
  revert anywhere rejects the whole batch. The claim panel models when a load completes: each effect
  run has its own liveness flag, every load of a run (its first one, started by the mount and not
  awaited, included) completes as a separate `Load`, and a load of a cleaned-up run never commits.
  Elsewhere a stale completion is not modelled.
- Page reloads on account or chain change are left out. So is the listener registration in
  `setProvider`.
- The ERC-20 token info hook (balances, symbols, decimals, its Transfer subscription and its delay)
  is not part of this model. Decimals enter `FormatUnits` as a parameter.
- Incentive data comes from a configured table or an indexer. Both are a parameter here.
- Close buttons that navigate to '/' and the incentive selector's change handler are plain wiring
  to `SetCurrentIncentiveId`, and are not modelled separately.
- Time formatting of incentive start and end times is left out, because it depends on locale and
  time zone.
- `BigNumberFormat.ToFixed`: the rounding and digit grouping of `toFormat`, and the 20-place rounding
  of big-number division, are abstracted. The result carries the exact quotient and the places.
- `BigNumberFormat.FormatUnits`: decimals are non-negative integers, as ERC-20 tokens report them.
  Negative exponents are not modelled.
- `Cache.Parse`: only the JSON values null, true, false and strings are modelled. Stored numbers,
  arrays or objects read as null in the model, whereas the source would return them. The app only
  stores the string "metamask".
- `Cache.ParseString`: strings are sequences of Unicode scalar values, not UTF-16 code units. A
  `\u` escape of a surrogate pair decodes to its character, as in the source, but a `\u` escape of
  a lone surrogate is treated as unparsable here, whereas the source keeps the lone code unit.
- `Cache.Store.Cache`: the call without any argument is not modelled, because the key is always
  given.
- `PositionsPage.ClaimAvailableReward.Claim`: a null address is taken to make the reward read throw,
  which the claim catches.
- `DataContext.ReconcileOrder`: ascending order is proved for the corrected numeric order only.
  Under the decimal-text order of the code as written the list can be out of order, as
  `ReconcileAsWrittenMisorders` shows.
- `DataContext.DataProvider.Reload`: publishes the corrected numeric order, where the code as written
  publishes `Reconcile(DecimalText, ...)` (see Findings). Membership, stability and length are the
  same under both orders.
- `PositionsPage.ClaimAvailableReward`: listeners are kept in one list for the panel, not one per
  contract object. Each is tagged with the context that registered it, which tells them apart.
- `Notifications.Thrown`: only object-valued thrown errors are modelled. A thrown `null` or
  `undefined` makes the error handler itself throw on `msg.responseText`, so no notice is enqueued.
- `ContractsContext.LoadUnstakedTokens` and `LoadStakedTokens` record token ids only, as the source
  builds positions holding just `tokenId`.
- Rendering details (icons, styles, the stepper's capitalised labels) are left out.

## Findings

| source | as written | input that shows it | evidently intended | confidence | as-written member | corrected member |
|---|---|---|---|---|---|---|
| src/contexts/data.tsx:114 | `orderBy(positions, 'tokenId')` compares the token ids, which are big-number objects, through their decimal text, so the order is lexicographic | positions with token ids 9 and 10 are published as 10, 9 | positions ascending by numeric token id | medium (relies on the big-number objects having no numeric `valueOf`); not executed | `OrderBy.DecimalTextMisorders` | `OrderBy.SortSorted` |

`DataContext.Reconcile` takes the order as a parameter. `DataContext.ReconcileAsWrittenMisorders`
exhibits the discrepancy on a whole reload, and `DataContext.DataProvider.Reload` uses the corrected
numeric order.
