# Deposit allocation, modelled in Dafny

This project models the deposit-allocation core of a small savings service.
A customer has deposit plans. Each plan is either one-time or monthly, and
gives each portfolio a target weight; the weight is also a capacity amount.
A batch of deposits is pooled and spread over the plans:

- One-time plans are funded before monthly plans. Within each type the plans
  keep their original order.
- Each plan is filled through a fresh *deposit pot*. The pot's limits are the
  plan's weights. A pot absorbs at most its aggregate remaining capacity and
  spreads what it absorbs over its portfolios, in proportion to each limit's
  share of the total limit.
- The walk over the plans stops as soon as the pool is used up.
- A positive leftover is spread with the weight ratio of the last plan in
  priority order.

Amounts are exact `real`s. A dictionary from portfolio name to amount is a
`map<string, real>`, and its sum is a recursive function over its keys.

Files:

- `amounts.dfy` (module `Amounts`): dictionary sums, key-by-key merging,
  scaling. It also has the loops that compute a sum and merge one dictionary
  into another.
- `deposit_plan.dfy` (module `DepositPlans`): plans, their total weight and
  their weight ratio.
- `deposit_pot.dfy` (module `DepositPots`): the specification of one pot
  allocation, and the `DepositPot` class. The class's `filled` map is updated
  in place by `AllocateDeposit`.
- `make_deposit.dfy` (module `MakeDeposit`): the use case.
  - `Execute` sorts the plan array in place, pools the deposits, runs the
    funding loop `FundPlans` and spreads the leftover.
  - All of this is proved equal to the functional specification `Allocation`.
  - `Allocation` is defined through `Walk`, the walk over the prioritized
    plans.
- `allocation_properties.dfy` (module `AllocationProperties`): properties of
  the walk and of the whole allocation.
  - The loop invariant.
  - How much each plan takes in, where the walk stops, and conservation of
    the pool.
- `scenarios.dfy` (module `Scenarios`): the repository's own use-case
  examples, and its pot test of three allocations in a row, proved with
  symbolic portfolio names. The names only need to be distinct.

## Model

| member | source | states |
|---|---|---|
| Amounts.SumValues | src/domain/entity/deposit_pot_entity.py:72 | summing a dictionary's values one key at a time gives exactly its sum |
| Amounts.MergeInto | src/domain/usecase/make_deposit_usecase.py:45-46 | adding a pot's dictionary into the running result key by key yields the merge (missing keys count as 0.0), and the result's total grows by exactly the pot's total |
| Amounts.SumMerge | src/domain/usecase/make_deposit_usecase.py:45-46 | merging one dictionary into another adds exactly its sum to the total |
| Amounts.SumScale | src/domain/entity/deposit_pot_entity.py:38-40 | scaling every value by c scales the sum by c |
| Amounts.MergeScaleEntries | src/domain/entity/deposit_pot_entity.py:38-40 | adding ratio×c into a dictionary touches exactly the ratio keys; each gains ratio×c from its old value (or from 0.0), and every other entry is unchanged |
| DepositPlans.Shares | src/domain/entity/deposit_pot_entity.py:60-63 | the ratio map has exactly the limit keys, and every ratio is 0.0 when the limits sum to zero |
| DepositPlans.SharesSumToOne | src/domain/entity/deposit_pot_entity.py:63 | when the limits do not sum to zero, the ratios sum to exactly 1 |
| DepositPlans.SharesBounded | src/domain/entity/deposit_plan_entity.py:37 | with non-negative weights every ratio lies in [0, 1] |
| DepositPlans.SharesSingle | src/domain/entity/deposit_pot_entity.py:63 | a single portfolio with non-zero weight has ratio 1.0 |
| DepositPlans.TotalAllocation | src/domain/entity/deposit_plan_entity.py:24 | the plan's total weight is non-negative and bounds every weight when the weights are non-negative |
| DepositPlans.AllocationRatio | src/domain/entity/deposit_plan_entity.py:33-37 | the weight ratio has exactly the plan's keys, is all 0.0 when the total is zero, sums to 1 otherwise, and lies in [0, 1] for non-negative weights |
| DepositPlans.ComputeAllocationRatio | src/domain/entity/deposit_plan_entity.py:33-37 | summing the weights and then dividing (or giving 0.0 for a zero total) yields the plan's weight ratio |
| DepositPots.Excess | src/domain/entity/deposit_pot_entity.py:29-34 | the excess is never negative, excess plus absorbed part is the whole amount, and the excess is positive exactly when the amount exceeds the remaining capacity |
| DepositPots.SpreadEntries | src/domain/entity/deposit_pot_entity.py:38-40 | spreading gives each ratio portfolio its old filled value (or 0.0) plus ratio×absorbed and keeps every other filled entry |
| DepositPots.SpreadTotal | src/domain/entity/deposit_pot_entity.py:38-40 | spreading raises the filled total by the ratios' sum times the absorbed amount |
| DepositPots.AllocateKeepsOtherPortfolios | src/domain/entity/deposit_pot_entity.py:37-40 | allocation adds the limit keys to the filled keys, and every filled portfolio outside the limit keeps its value |
| DepositPots.AllocatedTotal | src/domain/entity/deposit_pot_entity.py:29-40 | the total filled grows by exactly min(amount, remaining) when the limits do not sum to zero, and does not change when they do |
| DepositPots.AllocateFillsPot | src/domain/entity/deposit_pot_entity.py:29-40 | when the limits do not sum to zero, allocating at least the remaining capacity leaves remaining capacity exactly 0 |
| DepositPots.AllocateWithinCapacity | src/domain/entity/deposit_pot_entity.py:29-40 | an amount up to the remaining capacity (negative amounts included) leaves no excess and, when the limits do not sum to zero, moves the filled total by exactly that amount |
| DepositPots.AllocateNothing | src/domain/entity/deposit_pot_entity.py:37-40 | when nothing is absorbed every filled value is unchanged |
| DepositPots.AllocateZero | tests/test_deposit_pot_entity.py:164-172 | allocating 0.0 to a pot that is not over-full returns 0.0 and changes no filled value |
| DepositPots.AllocateToFullPot | tests/test_deposit_pot_entity.py:174-185 | allocating a non-negative amount to an exactly full pot returns it all as excess and changes no filled value (a limit portfolio without a filled entry is still added at 0.0) |
| DepositPots.AllocateOverfull | src/domain/entity/deposit_pot_entity.py:29-34 | on an over-full pot, an amount above the (negative) remaining capacity (every non-negative amount among them) gets an excess of amount − remaining, which is more than the amount, and when the limits do not sum to zero the filled total is pulled back to the total limit |
| DepositPots.DepositPot.constructor | src/domain/entity/deposit_pot_entity.py:14-15 | a pot holds the given limits and filled amounts |
| DepositPots.DepositPot.TotalAllocationLimit | src/domain/entity/deposit_pot_entity.py:72 | returns the sum of the limits |
| DepositPots.DepositPot.TotalAllocationAmount | src/domain/entity/deposit_pot_entity.py:81 | returns the sum of the filled amounts |
| DepositPots.DepositPot.RemainingAllocation | src/domain/entity/deposit_pot_entity.py:51 | returns sum(limit) − sum(filled), unclamped: negative exactly when the pot is over-full |
| DepositPots.DepositPot.AllocationRatio | src/domain/entity/deposit_pot_entity.py:60-63 | returns the capacity shares (`Shares` of the limits, the same function that defines a plan's weight ratio): exactly the limit keys, summing to 1 unless the limits sum to zero |
| DepositPots.DepositPot.IsFull | src/domain/entity/deposit_pot_entity.py:90 | the pot is full exactly when the remaining capacity is ≤ 0 |
| DepositPots.CapacityRatioOfPlan | src/domain/entity/deposit_plan_entity.py:33-37 | an empty pot built from a copy of a plan's weights reports the same ratio map as the plan, with exactly the plan's portfolios |
| DepositPots.DepositPot.SpreadAbsorbed | src/domain/entity/deposit_pot_entity.py:38-40 | the loop over the limit keys updates `filled` in place to the spread of the absorbed amount; the limits are a `const` field and cannot change |
| DepositPots.DepositPot.AllocateDeposit | src/domain/entity/deposit_pot_entity.py:17-42 | returns the excess, sets `filled` to the allocated state, keeps the limits, and when the limits do not sum to zero raises the filled total by exactly the absorbed amount |
| MakeDeposit.DepositTotal | src/domain/usecase/make_deposit_usecase.py:28 | the pool is the sum of the deposit amounts, non-negative when every amount is |
| MakeDeposit.OfTypePartition | src/domain/usecase/make_deposit_usecase.py:33 | the one-time and the monthly plans together are a permutation of all plans |
| MakeDeposit.Prioritize | src/domain/usecase/make_deposit_usecase.py:33 | the priority order is a permutation of the plans |
| MakeDeposit.PrioritizeOrderedAndStable | src/domain/usecase/make_deposit_usecase.py:33 | every one-time plan precedes every monthly plan, and the plans of each type keep their relative order |
| MakeDeposit.LastPrioritized | src/domain/usecase/make_deposit_usecase.py:53-54 | the last plan in priority order is the last monthly plan, or the last one-time plan when there is no monthly plan |
| MakeDeposit.SortByPriority | src/domain/usecase/make_deposit_usecase.py:33 | sorts the plan array in place into priority order |
| MakeDeposit.CopyMonthly | src/domain/usecase/make_deposit_usecase.py:33 | the second pass of the sort writes the monthly plans after the one-time plans, completing the priority order |
| MakeDeposit.FillPot | src/domain/usecase/make_deposit_usecase.py:37-42 | allocates the running remainder to a new `DepositPot` object whose limits are the plan's weights; returns what the pot holds (the pot fill) and the pot's reported total, which is that fill's sum |
| MakeDeposit.FundPlans | src/domain/usecase/make_deposit_usecase.py:35-50 | the funding loop's result and remainder are exactly the walk over the sorted plans from the pool |
| MakeDeposit.AddRemainingAllocation | src/domain/usecase/make_deposit_usecase.py:59-74 | each ratio portfolio gains ratio×leftover from its old value (or 0.0), and the total grows by the ratios' sum times the leftover |
| MakeDeposit.Execute | src/domain/usecase/make_deposit_usecase.py:13-57 | an empty plan or deposit list gives the empty map and leaves the plans alone; otherwise the plans end sorted into priority order, and the result is the allocation of the original plans and deposits |
| AllocationProperties.WalkConserves | src/domain/usecase/make_deposit_usecase.py:41-46 | the loop invariant: the result's total plus the remainder never changes along the walk |
| AllocationProperties.PotFillIntake | src/domain/entity/deposit_pot_entity.py:29-40 | a fresh pot takes in the amount clamped to its capacity, and a zero-capacity pot takes in nothing |
| AllocationProperties.PotFillToLimits | src/domain/entity/deposit_pot_entity.py:29-40 | a fresh pot given at least its (non-zero) capacity ends with every portfolio at its own limit |
| AllocationProperties.PotFillWithinCapacity | src/domain/entity/deposit_pot_entity.py:29-40 | a fresh pot given at most its (non-zero) capacity spreads all of the amount by capacity share |
| AllocationProperties.PotFillZeroCapacity | src/domain/entity/deposit_pot_entity.py:61-62 | a fresh zero-capacity pot takes nothing in, but still seeds each of its portfolios at 0.0 |
| AllocationProperties.PrioritizeKeepsCapacity | src/domain/usecase/make_deposit_usecase.py:33 | sorting keeps the plans' total capacity and the non-negativity of their weights |
| AllocationProperties.IntakeStep | src/domain/usecase/make_deposit_usecase.py:37-42 | with non-negative inputs a pot takes in between 0 and the amount: everything if its capacity covers the amount, otherwise exactly its capacity |
| AllocationProperties.WalkRemaining | src/domain/usecase/make_deposit_usecase.py:36-50 | with non-negative weights and pool, the walk leaves exactly the part of the pool beyond the plans' total capacity, clamped at 0, so the remainder never goes negative or grows |
| AllocationProperties.WalkAppend | src/domain/usecase/make_deposit_usecase.py:48-50 | once the pool is used up the walk stops: later plans add nothing, not even their keys |
| AllocationProperties.SpreadWholeAmount | src/domain/usecase/make_deposit_usecase.py:52-55 | spreading the leftover with ratios that sum to 1 adds exactly the leftover to the total |
| AllocationProperties.SpreadZeroRatios | src/domain/usecase/make_deposit_usecase.py:52-55 | spreading the leftover with all-zero ratios adds nothing to the total |
| AllocationProperties.WalkedRemaining | src/domain/usecase/make_deposit_usecase.py:35-50 | with non-negative inputs the loop leaves max(0, pool − capacity), between 0 and the pool, and the result's total plus that remainder is the pool |
| AllocationProperties.AllocationConserves | src/domain/usecase/make_deposit_usecase.py:24-57 | with non-negative inputs and a last plan of non-zero total weight, the allocation adds up to exactly the pooled deposits |
| AllocationProperties.AllocationWithinCapacity | src/domain/usecase/make_deposit_usecase.py:35-57 | with non-negative weights and deposits, when the plans can hold the pool, nothing is left over, no leftover is spread, and the allocation adds up to the pool |
| AllocationProperties.LeftoverLostOnZeroWeightLastPlan | src/domain/usecase/make_deposit_usecase.py:52-55 | with non-negative weights and deposits, when the last plan's weights sum to zero and the pool exceeds capacity, the leftover is spread with zero ratios and lost; the allocation adds up to only the capacity |
| Scenarios.InPriorityOrder | src/domain/usecase/make_deposit_usecase.py:33 | a one-time plan followed by a monthly plan is already in priority order |
| Scenarios.MainExample | tests/test_make_deposit_usecase.py:30-41 | plans {High risk 10000, Retirement 500} one-time and {0, 100} monthly, with deposits 10500 and 100, give {10000, 600} |
| Scenarios.MixedPortfolioExample | tests/test_make_deposit_usecase.py:44-55 | the monthly plan {Medium risk 300, Retirement 100} takes the last 100 as 75 and 25, giving {10000, 75, 525} |
| Scenarios.ExactAllocation | tests/test_make_deposit_usecase.py:58-67 | a deposit equal to the plan's capacity fills each portfolio to its limit |
| Scenarios.ExcessToMonthly | tests/test_make_deposit_usecase.py:70-80 | 1200 over {500, 300} and {200, 100} spreads the leftover 100 at 2/3 and 1/3 |
| Scenarios.MultipleDeposits | tests/test_make_deposit_usecase.py:83-94 | three deposits are pooled, and the pooled 1000 fills {800, 200} |
| Scenarios.ZeroAllocationPlan | tests/test_make_deposit_usecase.py:97-107 | a zero-weight one-time plan takes nothing, and the monthly plan and the leftover give {200, 100} |
| Scenarios.OnlyMonthlyPlan | tests/test_make_deposit_usecase.py:110-119 | 1500 over a single monthly plan {600, 400} gives {600 + 500×0.6, 400 + 500×0.4} |
| Scenarios.SmallAmounts | tests/test_make_deposit_usecase.py:122-131 | 75 over {100, 50} gives {50, 25} |
| Scenarios.SinglePortfolio | tests/test_make_deposit_usecase.py:134-143 | 800 over {High risk 1000} gives {800} |
| Scenarios.ZeroDeposit | tests/test_make_deposit_usecase.py:182-197 | a zero deposit still lists every portfolio of the plan, with 0.0 |
| Scenarios.LargeNumbers | tests/test_make_deposit_usecase.py:214-230 | 2000000 over {LargeCap 1000000, SmallCap 500000} fills the pot, and the leftover 500000 is spread at 2/3 and 1/3 |
| Scenarios.AllocateThreeTimes | tests/test_deposit_pot_entity.py:187-203 | any pot with total limit 1750 and total filled 350, allocated 250, 400 and then remaining + 100, returns excesses 0, 0 and 100 and ends exactly full |
| Scenarios.MultipleAllocations | tests/test_deposit_pot_entity.py:187-203 | three allocations in a row to one pot return excesses 0, 0 and exactly 100, and leave the pot full |

## Behaviour that follows the code

- Sorting:
  - `Execute` sorts the caller's plan list in place (make_deposit_usecase.py:33), and `SortByPriority` does the same to the plan array.
  - The model follows the code: `Execute` ensures the array ends in priority order, unless a list is empty.
- Over-full pot:
  - The remaining capacity is negative there, and it is still the amount absorbed (deposit_pot_entity.py:30-32).
  - Any amount above that negative remaining capacity, every non-negative amount included, therefore comes back with an excess of amount − remaining, which is more than the amount.
  - `AllocateOverfull` states this.
- Allocating 0.0:
  - Allocating 0.0 to an over-full pot returns −remaining (> 0) as excess; when the limits do not sum to zero it also pulls the filled total down to the limit.
  - `AllocateZero` therefore requires a pot that is not over-full.
- A last plan whose weights sum to zero spreads a positive leftover with all-zero ratios. The leftover then vanishes from the result (`LeftoverLostOnZeroWeightLastPlan`).

## Left out

- Floating-point arithmetic:
  - Amounts are exact reals, so rounding is not modelled. Neither are the tests' tolerance comparisons, or a float sum that drifts slightly below zero at the `remaining > 0` check.
  - Python sums floats in dictionary order; the model's `Sum` is order-independent.
- Deposit records are reduced to their amount. The identifier, reference code and timestamp are opaque data that the core never reads.
- Dictionary iteration order is not modelled:
  - Maps are unordered, which is sufficient because every merge and spread is additive per key.
  - `SortByPriority` works on plans, not dictionaries, and keeps their order as the stable sort does.
- Copying and aliasing of dictionaries are not modelled:
  - The use case copies each plan's weights into its pot (make_deposit_usecase.py:38), and `_add_remaining_allocation` mutates and returns the same dictionary.
  - Dafny maps are values, so both are plain value passing here.
- The demo driver src/main.py (hard-coded inputs, printing) is not part of this model.
- The abstract-base-class scaffolding is not part of this model either.
- The other concrete tests are not restated as lemmas; the generic lemmas cover them:
  - the pot tests of initialization, total limit, remaining capacity, ratio, zero-total ratio and `is_full` (tests/test_deposit_pot_entity.py:58-113) are instances of the contracts of `DepositPot.constructor`, `DepositPot.TotalAllocationLimit`, `DepositPot.TotalAllocationAmount`, `DepositPot.RemainingAllocation`, `DepositPot.AllocationRatio` (with `Shares`) and `DepositPot.IsFull`;
  - the remaining pot tests (tests/test_deposit_pot_entity.py:115-162 and 205-293) are instances of `Excess`, `AllocatedTotal`, `AllocateWithinCapacity`, `AllocateFillsPot`, `SpreadEntries` and `SharesSingle`;
  - the precision test (tests/test_make_deposit_usecase.py:199-212) checks that 1000 over {333.33, 333.33, 333.34} adds up to 1000 within a float tolerance, which is `AllocationWithinCapacity` in exact arithmetic.
- The empty-list cases (tests/test_make_deposit_usecase.py:158-180) are covered by `Execute`'s contract rather than by separate lemmas.
