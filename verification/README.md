# Verified model of the lending, swap and assets pallets

A Dafny model of the three pallets that share one asset ledger, and proofs about it:

- the **assets ledger** (`pallets/assets`): issue, destroy, transfer, prices, genesis;
- the **lending market** (`pallets/lending`): pools with supply, debt and two cumulative indices,
  user records that catch up lazily, supply / withdraw / borrow / repay / liquidate;
- the **constant-product exchange** (`pallets/swap`): exact-input and exact-output swaps, liquidity
  and its shares.

Check everything with `dafny verify dfyconfig.toml`.

## How it is built

Each pallet exists twice. Its state is a value (`AssetLedger.Ledger`, `LendingMarket.Market`,
`SwapExchange.Shares`) and each call a function on that value, with the writes made before an error
kept in the result. The storage itself is a class (`AssetsStorage.Assets`, `LendingStorage.Lending`,
`SwapStorage.Swap`) whose methods write maps and lists in the pallet's order; each method is proved to
leave exactly the state the function gives, with the same outcome. Properties are proved of the
functions and, in `ChainState`, `ChainRuns` and `ChainLosses`, over every interleaving of calls of the three pallets.

| file | holds |
|---|---|
| `FixedPoint`, `Sums`, `Identifiers` | 18-decimal arithmetic, sums over finite maps, asset and account names |
| `AssetLedger`, `AssetsStorage` | the ledger and its conservation law; the assets pallet's storage |
| `InterestModel` | a pool, its rates and accrual |
| `UserBooks` | user records and asset lists of one side, the value of a user's positions, exposure |
| `LendingMarket`, `LendingStorage` | the lending calls as functions; the lending pallet's storage |
| `LendingSteps`, `LendingInvariant` | what one call does to records and pools, on every outcome |
| `LendingHealth` | views, health after the fact, traps, a liquidation's effect on its target |
| `LendingOutcomes` | the outcome of every guard, and every balance and pool after a call |
| `LendingDrift`, `LendingLosses` | distance between claims, totals and cash: how far claims can exceed totals, and totals claims |
| `ConstantProduct`, `SwapExchange`, `SwapStorage` | pool arithmetic; the swap calls; the storage |
| `SwapSafety`, `SwapOutcomes` | products, shares and their value; what every call quotes, mints and moves |
| `ChainState`, `ChainRuns`, `ChainLosses` | all calls as steps of one state; what every run keeps |
| `KnownLimits` | figures of the accrual test, and runs from genesis after which expected properties fail |

## Conventions

- A fixed-point value is the natural number it stores, scaled by `D = 10^18`. `*`, `/`,
  `saturating_mul_int` and `saturating_from_rational` floor. The fixed-point library is not part of
  this repository; the figures its accrual test expects are reproduced (`KnownLimits.FirstTenBlocks`,
  `KnownLimits.NextTenBlocks`).
- Lending and swap amounts are unbounded naturals. Ledger balances and supplies in the storage class are
  128-bit, and every addition and subtraction on them is proved to stay in range.
- Subtractions and divisions are checked. One that would underflow or divide by zero *traps*: the
  outcome is `Panicked`, and the executor (`ChainState.Apply`) drops the call with everything it wrote.
  An error return keeps what was written before it. This describes builds with checked arithmetic. The
  release profile (Cargo.toml:1-2) does not switch overflow checks on, so there a bare subtraction
  wraps instead: the conditions under which a subtraction traps name exactly the inputs that wrap.
  An integer division by zero traps in every build, and one in the fixed-point library is taken to.
- Only user accounts sign. The lending pallet's account and the exchange accounts are constructors of
  their own, so exchange addresses are injective in the asset pair.
- `init_pool` overwrites, and anybody may call it. Runs use it for ids without a pool. Overwriting keeps
  records and indices in order exactly when no record of the asset has an index above one
  (`LendingInvariant.InitPoolKeepsInvIff`), and forgets nothing users may claim exactly when there is no
  record of the asset at all (`LendingDrift.InitPoolForgetsNothingIff`).
- Blocks only advance, so elapsed time is never negative; prices may change between calls.
- Anybody may call `set_inherent_asset`. The conservation and share-sum results allow it; the share-value
  result is about runs that keep the inherent asset, and about pools of another asset than it.

## Main results

1. *Every reachable state is in order* (`ChainRuns.ReachableStatesAreSafe`): from any genesis, over any
   legal interleaving of calls that succeed, fail half-way or trap, balances of each asset sum to its
   total supply; user lists and records match, records are positive and never ahead of their pool; pool
   shares add up; and each pool stays within its drift and cash bounds.
2. *Drift, both ways*: claims (pool index times the exact sum of amount / index) exceed the recorded
   supply by at most N * M after N committed accruals with multiplier product M, and the recorded supply
   exceeds the claims by at most (n * (1 + 2 P / D) + seized) * M after n lending calls on the pool that
   met claims of at most P (`ChainLosses.TotalsStayNearClaims`); the same for debt, with what liquidations paid. The pallet's
   cash, corrected by what liquidations paid in and seized, covers supply minus debt.
3. *Liquidation* answers the rounding question left open in the pallet: under all six floors the seizure
   stays within the close-factor limit and the payment within the debt, the seizure is worth the payment at
   the discounted price ratio up to three floors, and the target's shortfall rises by at most one unit.
4. *Health after the fact*: the checks run against an uncommitted pool, yet after a successful withdrawal
   or borrow the recomputed debt value is within one unit of the safe supply value.
5. *Traps*: `supply` never traps; `withdraw` and `borrow` trap exactly when the interest retained since
   the last accrual is more than the pool's unlent supply, `repay` exactly when the payment is more than
   the accrued pool records, `liquidate` exactly when it reaches a zero price. Runs from genesis reach
   such states (`KnownLimits`); repayments cannot trap before a pool's first committed accrual.
6. *Exchange*: exactly when a swap of any kind keeps a pool's product, uncovered payers and outputs of
   whole reserves included; splitting and round trips gain nothing in either direction; reserve product
   per squared share never falls over fair runs of all three pallets. Fair for a pool (`ChainRuns.Fair`)
   means: exact-input swaps that pay into it are covered, exact-output swaps with it are harmless,
   additions to it are harmless, and the inherent asset stays; for each kind the exact condition is given.
7. *Outcomes*: for every lending call in a reachable state, which guard gives which outcome and exactly when
   it is done, read off the views before the call; for every call of all three pallets, every balance of
   every account afterwards (`LendingOutcomes`, `SwapOutcomes`, `AssetLedger`).

## Model

| member | source | states |
|---|---|---|
| `AssetsStorage.Assets.constructor` | pallets/assets/src/lib.rs:153-162 | the genesis loop issues each asset, sends 500000 to the owner and sets the price, and ends conserved |
| `AssetsStorage.Assets.Issue` | pallets/assets/src/lib.rs:173-194 | issuing leaves the ledger value's issue and keeps conservation |
| `AssetsStorage.Assets.Destroy` | pallets/assets/src/lib.rs:66-75 | destroying takes the record out first; the total's decrement is in range |
| `AssetsStorage.Assets.Transfer` | pallets/assets/src/lib.rs:205-240 | debit then credit, self-transfers included; the 128-bit credit is in range |
| `AssetsStorage.Assets.SetPrice` | pallets/assets/src/lib.rs:196-198 | only the price changes |
| `AssetsStorage.Assets.SetInherentAsset` | pallets/assets/src/lib.rs:81-94 | only the inherent asset changes |
| `AssetLedger.TransferMoves` | pallets/assets/src/lib.rs:211-233 | succeeds exactly for a positive covered amount; moves it between two accounts and touches no other balance; a self-transfer changes nothing |
| `AssetLedger.IssueConserves` | pallets/assets/src/lib.rs:37-45 | holdings of every asset still sum to its total supply; the fresh id's holder has it all, and no other balance or total changes |
| `AssetLedger.DestroyConserves` | pallets/assets/src/lib.rs:66-71 | the holder's whole balance leaves holdings and total alike, and the total always covers it |
| `AssetLedger.DestroyTakes` | pallets/assets/src/lib.rs:66-71 | one balance goes to zero, one total falls by it, every other balance and total stays |
| `AssetLedger.TransferConserves` | pallets/assets/src/lib.rs:232-233 | conservation for any two accounts, equal or not, and the credited balance fits 128 bits |
| `AssetLedger.HoldingWithinSupply` | pallets/assets/src/lib.rs:137-141 | nobody holds more than the total supply; unissued ids have no holders |
| `AssetLedger.GenesisConserves` | pallets/assets/src/lib.rs:153-162 | any genesis configuration ends conserved with one id per entry |
| `AssetLedger.GenesisPays` | pallets/assets/src/lib.rs:153-162 | every balance and price after genesis: each issuer has the amount, of which 500000 units are the owner's if it covers them; earlier assets keep theirs |
| `InterestModel.EffectiveIsAccrued` | pallets/lending/src/lib.rs:512-539 | the index a view computes is the one an accrual stores; accruing again in the block, or changing the totals, moves neither index |
| `InterestModel.DebtRateIs` | pallets/lending/src/lib.rs:652-679 | the debt rate above its initial value, times supply, is utilizationFactor * debt less two floors; without supply the initial rate and no supply rate |
| `InterestModel.RateTimesTotal` | pallets/lending/src/lib.rs:652-664 | supply rate times supply is at most debt rate times debt, and short of it by less than two floors |
| `InterestModel.IndicesGrowByRate` | pallets/lending/src/lib.rs:526-534 | an index after t blocks is the greatest one within index * (1 + rate * t), on both sides |
| `InterestModel.InterestOf` | pallets/lending/src/lib.rs:526-534 | each total grows by floor(rate * total * t / D) |
| `InterestModel.AccruedFields` | pallets/lending/src/lib.rs:512-539 | an accrual writes totals, indices and block, and no parameter of the pool |
| `InterestModel.EffectiveGrows` | pallets/lending/src/lib.rs:526-534 | effective indices only grow with the block number |
| `InterestModel.GrownKeeps` | pallets/lending/src/lib.rs:546-548 | catching a user up never shrinks the record |
| `InterestModel.GrownLosesLittle` | pallets/lending/src/lib.rs:811-812 | and loses less than 1 + amount / D against the exact index ratio |
| `InterestModel.GrownTwice` | pallets/lending/src/lib.rs:797-800 | catching up twice at one index is catching up once |
| `InterestModel.SuppliersGetAtMostDebtorsPay` | pallets/lending/src/lib.rs:526-534 | in any accrual suppliers are credited at most what borrowers are charged |
| `InterestModel.RetainedInterestIsSmall` | pallets/lending/src/lib.rs:652-679 | the interest retained is below 1 + t * supply * (debt rate + D) / D^2 |
| `LendingInvariant.ReachablePoolRetainsLittle` | pallets/lending/src/lib.rs:526-534 | the same for every reachable pool, without supply included |
| `InterestModel.DebtOvertakesIff` | pallets/lending/src/lib.rs:526-534 | an accrual leaves more debt than supply exactly when the interest retained since the last one, in closed form on the stored fields, is more than the unlent supply |
| `InterestModel.MarginKeepsDebtCovered` | pallets/lending/src/lib.rs:652-679 | t * supply * (debt rate + D) / D^2 unlent units are margin enough |
| `InterestModel.AccrualKeepsUtilization` | pallets/lending/src/lib.rs:652-679 | while debt <= supply an accrual lowers neither utilization nor either rate |
| `InterestModel.SplittingCostsAtMostTwoFloors` | pallets/lending/src/lib.rs:512-539 | accruing in two spans gives each index more than the single accrual minus 1 + m2 / D |
| `InterestModel.SpansCostLittle` | pallets/lending/src/lib.rs:512-539 | accruing in any k spans leaves each index behind the single accrual's by at most (2 k - 1) * M - 1, also once debt has overtaken supply |
| `LendingStorage.Lending.AccrueInterest` | pallets/lending/src/lib.rs:512-539 | both multipliers from the old totals, then totals, indices and block written |
| `LendingStorage.Lending.UpdateUserSupply` | pallets/lending/src/lib.rs:542-573 | the record is caught up and changed, dropped with its list entry at zero; the subtraction traps exactly when the record is too small |
| `LendingStorage.Lending.UpdateUserDebt` | pallets/lending/src/lib.rs:576-607 | the same for debts |
| `LendingStorage.Lending.AccrueSupplyWithInterest` | pallets/lending/src/lib.rs:807-817 | an existing record is caught up to the accrued pool |
| `LendingStorage.Lending.AccrueDebtWithInterest` | pallets/lending/src/lib.rs:794-804 | the same for debts |
| `LendingStorage.Lending.EnlistSupply` | pallets/lending/src/lib.rs:208-212 | the asset is appended to the user's list unless it is there |
| `LendingStorage.Lending.EnlistDebt` | pallets/lending/src/lib.rs:334-338 | the same for debts |
| `UserBooks.AccrueUserKeeps` | pallets/lending/src/lib.rs:794-817 | catching up keeps records and lists in order and changes no view |
| `UserBooks.CreditKeeps` | pallets/lending/src/lib.rs:544-571 | a credit and its list entry keep the book in order and raise one view by the amount |
| `UserBooks.DebitKeeps` | pallets/lending/src/lib.rs:552-563 | a debit within the record keeps the book in order, lowers one view by the amount, and drops record and list entry exactly at zero |
| `UserBooks.ValueChange` | pallets/lending/src/lib.rs:721-734 | changing one record changes the user's value by the change of its own term, whatever happened to the list |
| `UserBooks.ValueIsSum` | pallets/lending/src/lib.rs:721-734 | the loop sums over the user's records, each once, whatever the order of the list |
| `UserBooks.GrownExposure` | pallets/lending/src/lib.rs:546-548 | catching up never raises a record's exact share amount / index |
| `LendingStorage.Lending.GetUserSupplyWithInterest` | pallets/lending/src/lib.rs:766-791 | recomputing from the stored pool gives the record at the effective index |
| `LendingStorage.Lending.GetUserDebtWithInterest` | pallets/lending/src/lib.rs:740-764 | the same for debts |
| `LendingStorage.Lending.GetUserInfo` | pallets/lending/src/lib.rs:717-738 | the loops give supply value, safe-factor-weighted supply value and debt value; undefined exactly when a listed pool is missing |
| `LendingOutcomes.SupplyInfoIsSums` | pallets/lending/src/lib.rs:717-738 | supply value and safe supply value are the sums, over the user's records, of the views at price, and at price times safe factor |
| `LendingOutcomes.DebtInfoIsSum` | pallets/lending/src/lib.rs:717-738 | the debt value likewise |
| `LendingStorage.Lending.constructor` | pallets/lending/src/lib.rs:136-140 | the genesis loop initialises each configured pool and ends valid |
| `LendingStorage.Lending.InitPool` | pallets/lending/src/lib.rs:492-501 | overwrites whatever pool the id had |
| `LendingStorage.Lending.Supply` | pallets/lending/src/lib.rs:181-219 | leaves exactly the supply function's state and outcome, and keeps the invariant |
| `LendingStorage.Lending.Withdraw` | pallets/lending/src/lib.rs:226-285 | likewise, with the user's catch-up kept on every error after it |
| `LendingStorage.Lending.CheckWithdraw` | pallets/lending/src/lib.rs:253-262 | collateral on the stale stored pool first, then cash on the accrued one |
| `LendingStorage.Lending.Borrow` | pallets/lending/src/lib.rs:292-345 | likewise, cash before the catch-up and collateral after it |
| `LendingStorage.Lending.CheckBorrow` | pallets/lending/src/lib.rs:314-317 | debt value with the new amount against safe supply value, on the stale stored pool |
| `LendingStorage.Lending.Repay` | pallets/lending/src/lib.rs:352-398 | likewise, the payment capped by the accrued debt |
| `LendingStorage.Lending.CheckLiquidate` | pallets/lending/src/lib.rs:434-456 | the threshold, the records and prices in order, and the payment the two limits leave |
| `LendingStorage.Lending.Seize` | pallets/lending/src/lib.rs:459-482 | the two transfers, then both records, then both pools |
| `LendingStorage.Lending.Settle` | pallets/lending/src/lib.rs:477-482 | supply record, debt record, then both pools, whose totals do not change |
| `LendingStorage.Lending.Liquidate` | pallets/lending/src/lib.rs:409-487 | leaves exactly the liquidation function's state and outcome, and keeps the invariant |
| `LendingInvariant.SupplyEffect` | pallets/lending/src/lib.rs:181-219 | keeps the invariant, never traps, and moves the caller's supply view by the amount if done, nothing else |
| `LendingOutcomes.SupplyAnswers` | pallets/lending/src/lib.rs:181-219 | done exactly for an existing pool and a positive amount the caller holds; which error otherwise |
| `LendingOutcomes.SupplySettles` | pallets/lending/src/lib.rs:181-219 | every balance of every account and every pool afterwards: the amount from caller to pallet and onto the accrued supply if done, else nothing |
| `LendingInvariant.WithdrawEffect` | pallets/lending/src/lib.rs:226-285 | on every outcome the invariant holds and only the caller's supply view moved, by the capped amount if done |
| `LendingOutcomes.WithdrawAnswers` | pallets/lending/src/lib.rs:226-285 | the outcome for every guard, from the state before: done exactly with a record, safe value beyond the release covering the debt value, enough unlent supply and enough cash |
| `LendingOutcomes.WithdrawSettles` | pallets/lending/src/lib.rs:260-281 | every balance and every pool afterwards: the capped amount from pallet to caller and off the accrued supply if done, else nothing |
| `LendingInvariant.BorrowEffect` | pallets/lending/src/lib.rs:292-345 | the same for the caller's debt view |
| `LendingOutcomes.BorrowAnswers` | pallets/lending/src/lib.rs:292-345 | the outcome for every guard, from the state before: done exactly with enough unlent supply, debt value plus the new debt within the safe supply value, and enough cash |
| `LendingOutcomes.BorrowSettles` | pallets/lending/src/lib.rs:320-341 | every balance and every pool afterwards: the amount from pallet to caller and onto the accrued debt if done, else nothing |
| `LendingInvariant.RepayEffect` | pallets/lending/src/lib.rs:352-398 | the same, and it traps exactly when a covered payment exceeds the debt the accrued pool records |
| `LendingOutcomes.RepayAnswers` | pallets/lending/src/lib.rs:352-398 | the outcome for every guard: done exactly with a record, a payment the payer holds, and that much recorded debt |
| `LendingOutcomes.RepaySettles` | pallets/lending/src/lib.rs:368-394 | every balance and every pool afterwards: the capped amount and no more from payer to pallet and off the accrued debt if done, else nothing |
| `LendingInvariant.LiquidateEffect` | pallets/lending/src/lib.rs:409-487 | only the target's two views move, by seizure and payment; it traps on a zero price only |
| `LendingOutcomes.LiquidateAnswers` | pallets/lending/src/lib.rs:409-487 | the outcome for every guard, from the state before: done exactly for a short target with supply, debt and prices, a payment the liquidator holds and a positive seizure the pallet then holds |
| `LendingOutcomes.LiquidateSettles` | pallets/lending/src/lib.rs:462-487 | every balance and every pool afterwards: payment from liquidator to pallet, collateral from pallet to liquidator, both accrued pools committed; otherwise nothing but a covered payment whose seizure failed |
| `LendingOutcomes.SeizureIsPriced` | pallets/lending/src/lib.rs:458-459 | the seizure is worth the payment at the discounted price ratio, from both sides: never more, and less by the three floors at most |
| `LendingOutcomes.PayLimitIsPriced` | pallets/lending/src/lib.rs:441-445 | the pay limit against the get limit at that ratio, from both sides |
| `LendingInvariant.ViewsMoveExactly` | pallets/lending/src/lib.rs:740-791 | any other user's and asset's answers are unchanged by a call in the block |
| `LendingInvariant.LiquidationWithinLimits` | pallets/lending/src/lib.rs:440-459 | in every reachable state the payment is within the accrued debt and the seizure within the close-factor share of the accrued supply |
| `LendingInvariant.AmountsFromViews` | pallets/lending/src/lib.rs:440-459 | payment and seizure of a liquidation as functions of the read-only views, prices and pool parameters before it |
| `LendingSteps.SeizedWithinLimit` | pallets/lending/src/lib.rs:443-459 | through all the floors, the seized amount of a payment within its limit is within the get limit |
| `LendingInvariant.InfoDefined` | pallets/lending/src/lib.rs:726 | the unwrap finds its pool in every reachable state |
| `LendingInvariant.BlocksKeepInv` | pallets/lending/src/lib.rs:512-539 | the invariant survives blocks passing |
| `LendingInvariant.InitPoolKeepsInvIff` | pallets/lending/src/lib.rs:631-650 | initialising keeps the invariant of records and indices exactly when no record of the asset has an index above one |
| `LendingDrift.InitPoolForgetsNothingIff` | pallets/lending/src/lib.rs:492-501 | the fresh pool covers what its users may claim exactly when nobody has a record of the asset |
| `LendingInvariant.GenesisInv` | pallets/lending/src/lib.rs:136-140 | genesis, with repeated ids too, starts with the invariant, without records, and with a fresh pool for exactly the listed ids |
| `LendingHealth.ViewsAreWhatAccrualStores` | pallets/lending/src/lib.rs:740-817 | the read-only views answer what accruing the pool and then the user would store |
| `LendingHealth.AccruingIsInvisible` | pallets/lending/src/lib.rs:794-817 | catching up a user on a stale pool, or committing the pool, changes no answer in that block |
| `LendingHealth.BorrowLeavesHealthy` | pallets/lending/src/lib.rs:313-341 | after a successful borrow the recomputed debt value is at most the safe supply value plus one |
| `LendingHealth.WithdrawLeavesHealthy` | pallets/lending/src/lib.rs:253-281 | the same after a successful withdrawal |
| `LendingHealth.ReleaseIsCovered` | pallets/lending/src/lib.rs:256 | the collateral subtraction never underflows |
| `LendingHealth.WithdrawTrapsIff` | pallets/lending/src/lib.rs:254-262 | a withdrawal traps exactly when it passes its health check on a pool whose retained interest is more than its unlent supply |
| `LendingHealth.BorrowTrapsIff` | pallets/lending/src/lib.rs:305-308 | a borrow traps exactly on such a pool |
| `LendingHealth.LiquidateTrapsIff` | pallets/lending/src/lib.rs:435-459 | a liquidation traps exactly when a short target with the supply meets a zero pay price, or with the debt too a zero get price |
| `LendingHealth.FailedSeizureKeepsPaymentIff` | pallets/lending/src/lib.rs:409-475 | a liquidation reports a failed transfer and has kept the payment exactly when the target is short, the payment is covered, and the seizure floors to nothing or exceeds the pallet's cash |
| `LendingHealth.LiquidationKeepsShortfall` | pallets/lending/src/lib.rs:426-482 | on every outcome the target's shortfall rises by at most one unit, also for one asset on both sides |
| `LendingDrift.AccrualDrift` | pallets/lending/src/lib.rs:530-534 | one accrual lets the claims outgrow the recorded total by at most one unit, before growth |
| `LendingDrift.FlowsKeepsBounds` | pallets/lending/src/lib.rs:512-629 | a call keeps a pool's drift bounds and its cash bound, with the history counting accruals, payments and seizures |
| `LendingDrift.DebtOwedNearlyRecorded` | pallets/lending/src/lib.rs:387-389 | what a borrower owes exceeds the accrued pool's recorded debt by less than 1 + N * M, and not at all before a first committed accrual |
| `LendingLosses.MovedClaims` | pallets/lending/src/lib.rs:542-607 | when a call moves one view, the exact claims follow it, less at most 1 + claims / D |
| `LendingLosses.AccrualLoses` | pallets/lending/src/lib.rs:530-534 | an accrual lets the recorded total outgrow the claims by at most claims / D |
| `LendingLosses.FollowedStaysBacked` | pallets/lending/src/lib.rs:512-607 | a call keeps both recorded totals within their bound above the claims, one loss later |
| `SwapStorage.Swap.InherentToPairedExactInput` | pallets/swap/src/lib.rs:267-298 | prices on the pool's balances, then two transfers whose results are discarded |
| `SwapStorage.Swap.PairedToInherentExactInput` | pallets/swap/src/lib.rs:439-472 | the other direction |
| `SwapStorage.Swap.AToBExactInput` | pallets/swap/src/lib.rs:615-653 | both hops priced before three transfers |
| `SwapStorage.Swap.SwapAssetsWithExactInput` | pallets/swap/src/lib.rs:86-137 | dispatch on the inherent asset |
| `SwapStorage.Swap.InherentToPairedExactOutput` | pallets/swap/src/lib.rs:353-384 | charges what the pricing function returns, which is the output amount |
| `SwapStorage.Swap.PairedToInherentExactOutput` | pallets/swap/src/lib.rs:527-560 | the other direction |
| `SwapStorage.Swap.AToBExactOutput` | pallets/swap/src/lib.rs:723-761 | two hops, back to front |
| `SwapStorage.Swap.SwapAssetsWithExactOutput` | pallets/swap/src/lib.rs:147-198 | dispatch on the inherent asset |
| `SwapStorage.Swap.SetLiquidity` | pallets/swap/src/lib.rs:1226-1235 | one account's shares are overwritten |
| `SwapStorage.Swap.IncreaseTotalLiquidity` | pallets/swap/src/lib.rs:1254-1264 | the pool's total grows |
| `SwapStorage.Swap.DecreaseTotalLiquidity` | pallets/swap/src/lib.rs:1269-1279 | the pool's total shrinks, or traps exactly when it is too small |
| `SwapStorage.Swap.AddLiquidity` | pallets/swap/src/lib.rs:1028-1091 | deposits, then mints; traps on an empty inherent reserve; shares still add up |
| `SwapStorage.Swap.RemoveLiquidity` | pallets/swap/src/lib.rs:1142-1177 | prices, pays out, then takes the shares; traps without liquidity or for more than the account has |
| `ConstantProduct.SwapKeepsProduct` | pallets/swap/src/lib.rs:971-972 | the output leaves a positive reserve and does not lower the product |
| `ConstantProduct.OutputIsGreatest` | pallets/swap/src/lib.rs:971-972 | and is the largest output that keeps it |
| `ConstantProduct.SplittingNeverBeatsOneTrade` | pallets/swap/src/lib.rs:949-978 | any list of inputs pays out at most what their sum would |
| `ConstantProduct.RoundTripLoses` | pallets/swap/src/lib.rs:949-978 | swapping back the whole output returns at most the input |
| `ConstantProduct.SamePoolTwoHop` | pallets/swap/src/lib.rs:627-630 | two hops on one pool never pay out more than came in |
| `ConstantProduct.MintKeepsValue` | pallets/swap/src/lib.rs:1080-1088 | a deposit of at least the pool ratio dilutes nobody |
| `ConstantProduct.BurnKeepsValue` | pallets/swap/src/lib.rs:1158-1177 | a removal keeps the value per share and empties no reserve while shares remain |
| `ConstantProduct.AddThenBurnLoses` | pallets/swap/src/lib.rs:1080-1159 | minting and burning the same shares returns at most the deposit |
| `ConstantProduct.MintedIsGreatest` | pallets/swap/src/lib.rs:1080 | the mint is the greatest n with n * reserve <= total * deposit |
| `ConstantProduct.BurnedIsGreatest` | pallets/swap/src/lib.rs:1158-1159 | a burn pays the greatest n with n * total <= reserve * shares |
| `ConstantProduct.ExactOutputKeepsProductIff` | pallets/swap/src/lib.rs:1010-1018 | charging the output amount keeps the product exactly when nothing is paid out or the output reserve is deeper by at least the amount |
| `SwapSafety.InherentInReserves` | pallets/swap/src/lib.rs:276-298 | the reserves after a swap: the input if it was covered, and less the output unless it returns to the pool |
| `SwapSafety.PairedInReserves` | pallets/swap/src/lib.rs:448-472 | the other direction |
| `SwapSafety.InherentInKeepsProductIff` | pallets/swap/src/lib.rs:267-298 | on the ledger, a swap keeps its pool's product exactly when the payer covers the input, nothing comes out, or it returns to the pool |
| `SwapSafety.PairedInKeepsProductIff` | pallets/swap/src/lib.rs:439-472 | the other direction |
| `SwapSafety.CrossInKeepsProductIff` | pallets/swap/src/lib.rs:615-653 | for covered and uncovered payers, exactly when a two-hop swap keeps an observed pool's product, one pool for both hops included |
| `SwapSafety.FundedSwapKeepsProducts` | pallets/swap/src/lib.rs:86-137 | any exact-input swap keeps any observed pool's product if, where that pool takes the input, the payer covers it |
| `SwapSafety.TradesNeverBeatOne` | pallets/swap/src/lib.rs:267-472 | on the ledger, in either direction, covered trades by any payers get at most one trade's output |
| `SwapSafety.SwapRoundTrip` | pallets/swap/src/lib.rs:267-472 | a covered swap there and back, whichever asset comes first, returns at most the input |
| `SwapOutcomes.ExactInputPays` | pallets/swap/src/lib.rs:86-137 | any exact-input swap, two hops included: an empty pool is reported exactly when one on the way lacks an asset, and changes nothing; otherwise the quote follows the reserves before the call, and every balance of every account is given |
| `SwapOutcomes.RecipientGetsQuote` | pallets/swap/src/lib.rs:86-137 | the named recipient is paid exactly the quote |
| `SwapSafety.InherentForKeepsProductIff` | pallets/swap/src/lib.rs:353-384 | for every non-empty pool, payer, recipient and output: exactly when an exact-output swap keeps the product; it empties the reserve exactly when asked for all of it by somebody else than the pool |
| `SwapSafety.PairedForKeepsProductIff` | pallets/swap/src/lib.rs:527-560 | the other direction |
| `SwapSafety.CrossForKeepsProductIff` | pallets/swap/src/lib.rs:723-761 | the same for two-hop exact-output swaps, observed from either pool, one pool for both hops included |
| `SwapSafety.HarmlessSwapKeepsProducts` | pallets/swap/src/lib.rs:147-198 | any exact-output swap, seen from a pool it does not touch or is harmless to |
| `SwapOutcomes.ExactOutputPays` | pallets/swap/src/lib.rs:147-198 | the same for any exact-output swap: charge, middle amount and payout, each moved only if covered |
| `SwapSafety.AddLiquidityAddsUp` | pallets/swap/src/lib.rs:1040-1089 | shares add up afterwards; the overwriting first injection loses nothing |
| `SwapOutcomes.AdditionMints` | pallets/swap/src/lib.rs:1028-1091 | a first injection mints the inherent amount, a later one the greatest n with n * reserve <= total * deposit; the total and the account's shares rise by n, nobody else's change; it traps exactly with shares but no reserve |
| `SwapOutcomes.AdditionPays` | pallets/swap/src/lib.rs:1046-1078 | every balance afterwards: each covered deposit from account to pool |
| `SwapSafety.RemoveLiquidityAddsUp` | pallets/swap/src/lib.rs:1151-1177 | done exactly for a held amount of existing liquidity; the total's decrement never stops it |
| `SwapOutcomes.RemovalBurns` | pallets/swap/src/lib.rs:1151-1177 | the total and the account's shares fall by the burned ones, nobody else's change |
| `SwapOutcomes.RemovalPays` | pallets/swap/src/lib.rs:1158-1174 | every balance afterwards: the account receives the greatest parts of both reserves in proportion to the shares |
| `SwapSafety.AdditionKeepsValueIff` | pallets/swap/src/lib.rs:1028-1089 | for every payer, covered or not, on a sound pool: exactly when an addition lowers no share's value and leaves the pool sound |
| `SwapSafety.FairAdditionIsHarmless` | pallets/swap/src/lib.rs:1080-1088 | a covered addition at the pool ratio, or a covered opening with both assets, is such an addition |
| `SwapSafety.UncoveredAdditionIff` | pallets/swap/src/lib.rs:1067-1088 | one that covers neither deposit is so exactly when it mints nothing |
| `SwapSafety.RemovalKeepsValue` | pallets/swap/src/lib.rs:1142-1177 | no removal lowers the value of the remaining shares |
| `SwapSafety.AddThenRemove` | pallets/swap/src/lib.rs:1028-1177 | adding and at once burning exactly the minted shares takes out at most the inherent amount added |
| `ChainState.StepKeepsInv` | pallets/lending/src/lib.rs:167-503 | every legal call of any pallet, on every outcome, keeps the invariant of the whole chain |
| `ChainState.OutsideLeavesPallet` | pallets/assets/src/lib.rs:205-240 | calls of the other pallets never debit the lending account |
| `ChainRuns.StepKeepsTallies` | pallets/lending/src/lib.rs:512-607 | every call keeps every pool's drift and cash bounds |
| `ChainRuns.RunsAreSafe` | pallets/lending/src/lib.rs:167-503 | invariant and bounds over every legal run |
| `ChainRuns.ReachableStatesAreSafe` | pallets/lending/src/lib.rs:133-141 | the same from every genesis |
| `ChainRuns.ReachableBalancesInRange` | pallets/assets/src/lib.rs:205-240 | in every reachable state credits and debits are in range and unissued ids have no holders |
| `ChainRuns.PayoutsAreFunded` | pallets/lending/src/lib.rs:260-329 | from genesis, while liquidations have seized no more of an asset than they paid in, a positive borrow or withdrawal of it never fails its payout |
| `ChainRuns.UnseizedIsPaidIn` | pallets/lending/src/lib.rs:462-475 | so in particular while no liquidation has succeeded in seizing it |
| `ChainRuns.RepaymentsAreCovered` | pallets/lending/src/lib.rs:368-389 | from genesis, while a pool's debt index is still one, nobody owes more than the accrued pool records and no repayment traps |
| `ChainLosses.TotalsStayNearClaims` | pallets/lending/src/lib.rs:512-607 | in every reachable state a pool's recorded supply and debt exceed the claims by at most (n * (1 + 2 P / D) + moved) * M after n lending calls on it, liquidations included |
| `ChainRuns.FairCallKeepsValue` | pallets/swap/src/lib.rs:86-256 | no fair call of any pallet lowers a pool's value per share |
| `ChainRuns.FairRunsStaySound` | pallets/swap/src/lib.rs:949-1177 | after every fair run a pool with liquidity holds some of both assets |
| `ChainRuns.AdditionsAreDefined` | pallets/swap/src/lib.rs:1080 | so from genesis the division by the inherent reserve never traps after a fair run |
| `ChainRuns.ShareValueNeverFalls` | pallets/swap/src/lib.rs:949-1177 | over fair runs with liquidity, reserve product per squared share never falls and no reserve is emptied |
| `KnownLimits.FirstTenBlocks` | pallets/lending/src/tests.rs:57-84 | the multipliers and totals the accrual test expects |
| `KnownLimits.NextTenBlocks` | pallets/lending/src/tests.rs:86-92 | the later totals it expects |
| `KnownLimits.DebtMayOvertakeSupply` | pallets/lending/src/lib.rs:526-534 | a run from genesis after which accrued debt exceeds supply, so that every borrow of the asset and every withdrawal of the supplier traps |
| `KnownLimits.RepaymentMayTrap` | pallets/lending/src/lib.rs:387-389 | a run from genesis, with one committed accrual, after which the only borrower cannot repay what is owed: the pool records less |
| `KnownLimits.OverwritingForgetsClaims` | pallets/lending/src/lib.rs:492-501 | a run from genesis after which initialising the pool again leaves it empty while its users still owe and are owed, and a repayment traps |
| `KnownLimits.LiquidatorMayLosePayment` | pallets/lending/src/lib.rs:462-475 | a run from genesis after which a liquidation of one unit seizes nothing, fails and keeps the payment |
| `KnownLimits.UnfundedSwapLowersProduct` | pallets/swap/src/lib.rs:287-298 | on a pool opened from genesis, the pool pays out although the payer's transfer failed |
| `KnownLimits.ExactOutputDrainsPool` | pallets/swap/src/lib.rs:995-997 | asking that pool for exactly a whole reserve drains it for a payer who pays nothing, in both directions |
| `KnownLimits.DrainedPoolRefusesAdditions` | pallets/swap/src/lib.rs:1080 | after such a call every addition to the pool divides by zero |
| `KnownLimits.FreeSharesPayOut` | pallets/swap/src/lib.rs:1067-1088 | a run from genesis in which somebody without funds is minted shares for deposits that failed, and burns them for half the pool |

## Left out

- Overflow of 128-bit fixed-point and swap arithmetic: lending and swap amounts are unbounded, so the results are about inputs on which no product overflows.
- What happens after a subtraction wraps in a build without overflow checks: the model stops at the trap.
- `calculate_output`: for a non-inherent input it prices by the output asset, so no agreement with execution is stated.
- `fee_rate`, `min_output`, `max_input`, `min_liquidity` and the minimum removal amounts: carried by the pallet, never used in a computation.
- Address derivation by hashing: replaced by injective constructors.
- The day-based interest formulas of the repository's own documentation: the code accrues per block, and the model follows the code. That documentation also defines supply utilization with the borrows added to the denominator; the code divides debt by supply.
- Liquidation and pool totals: the documentation says a liquidator's payment goes back to the pool; the code changes neither `supply` nor `debt` of any pool there, and the model follows the code, with the two amounts kept in `LendingDrift.Tally`.
- Events, weights, debug prints, origin checks other than that users sign, the off-chain worker, RPC, node and runtime wiring.
- The fixed-point library and the storage framework are not part of this model beyond the operations named above.
