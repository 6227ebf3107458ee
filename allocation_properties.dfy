/**
 * Properties of the deposit use case: what the walk over the prioritized
 * plans conserves, how much of the pool each plan takes, where the walk
 * stops, and what the whole allocation adds up to.
 *
 * The walk is stated over any pot fill `fill`; the facts about the real pot
 * fill (PotFill) enter only through PotFillIntake, so that no proof below has
 * to look inside a pot.
 */
module AllocationProperties {
  import opened Amounts
  import opened DepositPlans
  import opened DepositPots
  import opened MakeDeposit

  // ---------------------------------------------------------------------------
  // Conservation along the walk
  // ---------------------------------------------------------------------------

  /**
   * The loop invariant of the use case: each pot's total is taken off the
   * pool and merged into the result, so the result's total plus what is left
   * of the pool never changes.
   */
  lemma {:induction false} WalkConserves(plans: seq<DepositPlan>, acc: Portfolios, remaining: real, fill: Fill)
    ensures Sum(Walk(plans, acc, remaining, fill).result) + Walk(plans, acc, remaining, fill).remaining
      == Sum(acc) + remaining
    decreases |plans|
  {
    if plans != [] {
      var f := fill(plans[0].allocation, remaining);
      var next := Progress(Merge(acc, f), remaining - Sum(f));
      WalkStep(plans, acc, remaining, fill, f, next);
      SumMerge(acc, f);
      if next.remaining > 0.0 {
        WalkConserves(plans[1..], next.result, next.remaining, fill);
      }
    }
  }

  // ---------------------------------------------------------------------------
  // How much each pot takes in
  // ---------------------------------------------------------------------------

  /**
   * The total a fresh pot whose limits sum to `capacity` takes in when
   * `amount` is allocated to it: nothing when the capacity is zero, else the
   * amount clamped to the capacity.
   */
  function PotIntake(capacity: real, amount: real): real
  {
    if capacity == 0.0 then 0.0 else Absorbed(amount, capacity)
  }

  /** The total `fill` puts into a fresh pot with limits `w` from `amount`. */
  ghost function Intake(fill: Fill, w: Portfolios, amount: real): real
  {
    Sum(fill(w, amount))
  }

  /** `fill` takes in exactly PotIntake of the limits' total, for every limit map and amount. */
  ghost predicate TakesIntake(fill: Fill)
  {
    forall w, a :: Intake(fill, w, a) == PotIntake(Sum(w), a)
  }

  /** A fresh pot takes in the amount clamped to its capacity, and a zero-capacity pot takes in nothing. */
  lemma PotFillIntake()
    ensures TakesIntake(PotFill)
  {
    forall w: Portfolios, a: real
      ensures Intake(PotFill, w, a) == PotIntake(Sum(w), a)
    {
      AllocatedTotal(w, map[], a);
    }
  }

  /** Spreading a non-zero total with the shares of that total rebuilds the map. */
  lemma SpreadSharesOfTotal(w: Portfolios, t: real)
    requires t != 0.0
    ensures Spread(map[], SharesOf(w, t), t) == w
  {
    var r := Spread(map[], SharesOf(w, t), t);
    SpreadEntries(map[], SharesOf(w, t), t);
    forall p | p in w
      ensures r[p] == w[p]
    {
      assert w[p] / t * t == w[p];
    }
  }

  /**
   * A fresh pot given at least its capacity ends exactly at its limits, every
   * portfolio filled to its own limit.
   */
  lemma PotFillToLimits(w: Portfolios, amount: real)
    requires Sum(w) != 0.0 && amount >= Sum(w)
    ensures PotFill(w, amount) == w
  {
    var t := Sum(w);
    assert Sum(map[]) == 0.0;
    assert Absorbed(amount, t - Sum(map[])) == t;
    SpreadSharesOfTotal(w, t);
  }

  /**
   * A fresh pot given no more than its (non-zero) capacity spreads all of the
   * amount with each portfolio's share of the capacity.
   */
  lemma PotFillWithinCapacity(w: Portfolios, amount: real)
    requires Sum(w) != 0.0 && amount <= Sum(w)
    ensures PotFill(w, amount) == Spread(map[], SharesOf(w, Sum(w)), amount)
  {
    assert Sum(map[]) == 0.0;
    assert Absorbed(amount, Sum(w) - Sum(map[])) == amount;
  }

  /** A fresh pot of zero capacity takes nothing in and seeds each of its portfolios at 0.0. */
  lemma PotFillZeroCapacity(w: Portfolios, amount: real)
    requires Sum(w) == 0.0
    ensures PotFill(w, amount) == map p | p in w :: 0.0
  {
    var c := Absorbed(amount, Sum(w) - Sum(map[]));
    var r := PotFill(w, amount);
    SpreadEntries(map[], Shares(w), c);
    forall p | p in w
      ensures r[p] == 0.0
    {
      assert 0.0 * c == 0.0;
    }
  }

  /** Every plan's weights are non-negative. */
  ghost predicate NonNegativePlans(plans: seq<DepositPlan>)
  {
    forall plan | plan in plans :: NonNegative(plan.allocation)
  }

  /** The total weight of all plans, added up from the first. */
  ghost function Capacity(plans: seq<DepositPlan>): (c: real)
    ensures NonNegativePlans(plans) ==> c >= 0.0
    decreases |plans|
  {
    if plans == [] then 0.0 else TotalAllocation(plans[0]) + Capacity(plans[1..])
  }

  lemma {:induction false} CapacityAppend(a: seq<DepositPlan>, b: seq<DepositPlan>)
    ensures Capacity(a + b) == Capacity(a) + Capacity(b)
    decreases |a|
  {
    if a != [] {
      assert (a + b)[1..] == a[1..] + b;
      CapacityAppend(a[1..], b);
    } else {
      assert a + b == b;
    }
  }

  /** The capacity of the plans is the capacity of their one-time plans plus that of their monthly plans. */
  lemma {:induction false} CapacityByType(plans: seq<DepositPlan>)
    ensures Capacity(plans) == Capacity(OfType(plans, OneTime)) + Capacity(OfType(plans, Monthly))
    decreases |plans|
  {
    if plans != [] {
      var init := plans[..|plans| - 1];
      var last := plans[|plans| - 1];
      assert plans == init + [last];
      CapacityByType(init);
      CapacityAppend(init, [last]);
      OfTypeSnoc(init, last, OneTime);
      OfTypeSnoc(init, last, Monthly);
      CapacityAppend(OfType(init, OneTime), if last.planType == OneTime then [last] else []);
      CapacityAppend(OfType(init, Monthly), if last.planType == Monthly then [last] else []);
    }
  }

  /** Sorting into priority order changes neither the plans' capacity nor their non-negativity. */
  lemma PrioritizeKeepsCapacity(plans: seq<DepositPlan>)
    ensures Capacity(Prioritize(plans)) == Capacity(plans)
    ensures NonNegativePlans(plans) ==> NonNegativePlans(Prioritize(plans))
  {
    CapacityAppend(OfType(plans, OneTime), OfType(plans, Monthly));
    CapacityByType(plans);
    forall plan | plan in Prioritize(plans)
      ensures plan in plans
    {
      assert plan in multiset(Prioritize(plans));
    }
  }

  /**
   * One pot with a non-negative capacity and a non-negative amount: either it
   * takes in everything (and its capacity covers the amount), or it takes in
   * exactly its capacity and leaves the rest.
   */
  lemma IntakeStep(capacity: real, amount: real)
    requires capacity >= 0.0 && amount >= 0.0
    ensures 0.0 <= PotIntake(capacity, amount) <= amount
    ensures amount - PotIntake(capacity, amount) <= 0.0 ==> amount <= capacity
    ensures amount - PotIntake(capacity, amount) > 0.0 ==> PotIntake(capacity, amount) == capacity
  {
  }

  /** The plans after the first are non-negative when all are. */
  lemma NonNegativeTail(plans: seq<DepositPlan>)
    requires plans != [] && NonNegativePlans(plans)
    ensures NonNegative(plans[0].allocation) && NonNegativePlans(plans[1..])
  {
    forall plan | plan in plans[1..]
      ensures plan in plans
    {
    }
  }

  /**
   * With non-negative weights and a non-negative pool, each visited plan takes
   * in the smaller of what is left and its total weight (a zero-weight plan
   * nothing), so the walk ends with exactly the part of the pool that exceeds
   * the plans' capacity: never negative and never more than it started with.
   */
  lemma {:induction false} WalkRemaining(plans: seq<DepositPlan>, acc: Portfolios, remaining: real, fill: Fill)
    requires TakesIntake(fill)
    requires NonNegativePlans(plans)
    requires remaining >= 0.0
    ensures Walk(plans, acc, remaining, fill).remaining ==
      if remaining - Capacity(plans) > 0.0 then remaining - Capacity(plans) else 0.0
    decreases |plans|
  {
    if plans != [] {
      var f := fill(plans[0].allocation, remaining);
      var left := remaining - Sum(f);
      var capacity := TotalAllocation(plans[0]);
      var later := Capacity(plans[1..]);
      NonNegativeTail(plans);
      assert Capacity(plans) == capacity + later && later >= 0.0;
      assert Sum(f) == PotIntake(capacity, remaining) by {
        assert Intake(fill, plans[0].allocation, remaining) == PotIntake(capacity, remaining);
      }
      IntakeStep(capacity, remaining);
      WalkStep(plans, acc, remaining, fill, f, Progress(Merge(acc, f), left));
      if left > 0.0 {
        WalkRemaining(plans[1..], Merge(acc, f), left, fill);
        assert left == remaining - capacity;
      } else {
        assert remaining - Capacity(plans) <= 0.0;
      }
    }
  }

  // ---------------------------------------------------------------------------
  // Where the walk stops
  // ---------------------------------------------------------------------------

  /** Where a walk goes on to `rest` from: nowhere once the pool is used up. */
  ghost function Continue(w: Progress, rest: seq<DepositPlan>, fill: Fill): Progress
  {
    if w.remaining <= 0.0 then w else Walk(rest, w.result, w.remaining, fill)
  }

  /**
   * Walking `plans + rest` is walking `plans` and then, only if some of the
   * pool is still left, walking `rest` from there: once the pool is used up,
   * later plans add nothing to the result, not even their keys.
   */
  lemma {:induction false} WalkAppend(plans: seq<DepositPlan>, rest: seq<DepositPlan>, acc: Portfolios, remaining: real, fill: Fill)
    requires plans != []
    ensures Walk(plans + rest, acc, remaining, fill) == Continue(Walk(plans, acc, remaining, fill), rest, fill)
    decreases |plans|
  {
    var f := fill(plans[0].allocation, remaining);
    var m := Merge(acc, f);
    var r := remaining - Sum(f);
    assert Walk(plans, acc, remaining, fill) ==
      if r <= 0.0 then Progress(m, r) else Walk(plans[1..], m, r, fill)
    by {
      WalkStep(plans, acc, remaining, fill, f, Progress(m, r));
    }
    assert Walk(plans + rest, acc, remaining, fill) ==
      if r <= 0.0 then Progress(m, r) else Walk(plans[1..] + rest, m, r, fill)
    by {
      assert (plans + rest)[0] == plans[0];
      assert (plans + rest)[1..] == plans[1..] + rest;
      WalkStep(plans + rest, acc, remaining, fill, f, Progress(m, r));
    }
    if r > 0.0 {
      if plans[1..] == [] {
        assert plans[1..] + rest == rest;
      } else {
        WalkAppend(plans[1..], rest, m, r, fill);
      }
    }
  }

  // ---------------------------------------------------------------------------
  // The whole allocation
  // ---------------------------------------------------------------------------

  /** Spreading with ratios that sum to 1 adds exactly the spread amount to the total. */
  lemma SpreadWholeAmount(filled: Portfolios, ratios: Portfolios, amount: real)
    requires Sum(ratios) == 1.0
    ensures Sum(Spread(filled, ratios, amount)) == Sum(filled) + amount
  {
    SpreadTotal(filled, ratios, amount);
  }

  /** Spreading with all-zero ratios leaves the total as it was. */
  lemma SpreadZeroRatios(filled: Portfolios, ratios: Portfolios, amount: real)
    requires forall p | p in ratios :: ratios[p] == 0.0
    ensures Sum(Spread(filled, ratios, amount)) == Sum(filled)
  {
    SumZeros(ratios);
    SpreadTotal(filled, ratios, amount);
  }

  /** The walk of the allocation, over the plans in priority order from the pooled deposits. */
  ghost function Walked(plans: seq<DepositPlan>, deposits: seq<Deposit>): Progress
  {
    Walk(Prioritize(plans), map[], DepositTotal(deposits), PotFill)
  }

  /**
   * The allocation of non-empty inputs in terms of its walk: the walk's result
   * when it uses the pool up, or that result with the leftover spread over
   * the ratio of the last plan in priority order.
   */
  lemma AllocationOfWalk(plans: seq<DepositPlan>, deposits: seq<Deposit>, w: Progress, ratio: Portfolios)
    requires plans != [] && deposits != []
    requires Walked(plans, deposits) == w
    requires ratio == AllocationRatio(Prioritize(plans)[|plans| - 1])
    ensures Allocation(plans, deposits) == if w.remaining > 0.0 then Spread(w.result, ratio, w.remaining) else w.result
  {
  }

  /** What the walk of the allocation leaves of the pool, given non-negative inputs. */
  lemma WalkedRemaining(plans: seq<DepositPlan>, deposits: seq<Deposit>)
    requires NonNegativePlans(plans) && NonNegativeDeposits(deposits)
    ensures Walked(plans, deposits).remaining ==
      if DepositTotal(deposits) - Capacity(plans) > 0.0 then DepositTotal(deposits) - Capacity(plans) else 0.0
    ensures 0.0 <= Walked(plans, deposits).remaining <= DepositTotal(deposits)
    ensures Sum(Walked(plans, deposits).result) + Walked(plans, deposits).remaining == DepositTotal(deposits)
  {
    PotFillIntake();
    PrioritizeKeepsCapacity(plans);
    WalkRemaining(Prioritize(plans), map[], DepositTotal(deposits), PotFill);
    WalkConserves(Prioritize(plans), map[], DepositTotal(deposits), PotFill);
  }

  /**
   * Conservation: with non-negative inputs and a last plan in priority order
   * whose weights do not sum to zero, the allocation adds up to exactly the
   * pooled deposits.
   */
  lemma AllocationConserves(plans: seq<DepositPlan>, deposits: seq<Deposit>)
    requires plans != [] && deposits != []
    requires NonNegativePlans(plans) && NonNegativeDeposits(deposits)
    requires TotalAllocation(Prioritize(plans)[|plans| - 1]) != 0.0
    ensures Sum(Allocation(plans, deposits)) == DepositTotal(deposits)
  {
    WalkedRemaining(plans, deposits);
    var w := Walked(plans, deposits);
    var ratio := AllocationRatio(Prioritize(plans)[|plans| - 1]);
    AllocationOfWalk(plans, deposits, w, ratio);
    if w.remaining > 0.0 {
      SpreadWholeAmount(w.result, ratio, w.remaining);
    }
  }

  /**
   * Conservation within capacity: when the plans can hold the whole pool, no
   * leftover is spread, the allocation is the walk's result, and it adds up to
   * exactly the pooled deposits.
   */
  lemma AllocationWithinCapacity(plans: seq<DepositPlan>, deposits: seq<Deposit>)
    requires plans != [] && deposits != []
    requires NonNegativePlans(plans) && NonNegativeDeposits(deposits)
    requires DepositTotal(deposits) <= Capacity(plans)
    ensures Walked(plans, deposits).remaining == 0.0
    ensures Allocation(plans, deposits) == Walked(plans, deposits).result
    ensures Sum(Allocation(plans, deposits)) == DepositTotal(deposits)
  {
    WalkedRemaining(plans, deposits);
  }

  /**
   * A pool beyond the plans' capacity, with a last plan in priority order
   * whose weights sum to zero: the leftover is spread with all-zero ratios,
   * so it is lost and the allocation adds up to only the plans' capacity.
   */
  lemma LeftoverLostOnZeroWeightLastPlan(plans: seq<DepositPlan>, deposits: seq<Deposit>)
    requires plans != [] && deposits != []
    requires NonNegativePlans(plans) && NonNegativeDeposits(deposits)
    requires TotalAllocation(Prioritize(plans)[|plans| - 1]) == 0.0
    requires DepositTotal(deposits) > Capacity(plans)
    ensures Sum(Allocation(plans, deposits)) == Capacity(plans)
    ensures Sum(Allocation(plans, deposits)) < DepositTotal(deposits)
  {
    WalkedRemaining(plans, deposits);
    var w := Walked(plans, deposits);
    var ratio := AllocationRatio(Prioritize(plans)[|plans| - 1]);
    AllocationOfWalk(plans, deposits, w, ratio);
    SpreadZeroRatios(w.result, ratio, w.remaining);
  }
}
