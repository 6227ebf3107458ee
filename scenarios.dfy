/**
 * Concrete runs of the deposit use case on the examples its test suite pins
 * down, computed from the model with exact arithmetic. Portfolio names are
 * parameters: each example holds for any distinct names.
 *
 * Each example is split into its pots, its walk and its final allocation, so
 * that no single proof has to unfold more than one of them.
 */
module Scenarios {
  import opened Amounts
  import opened DepositPlans
  import opened DepositPots
  import opened MakeDeposit
  import opened AllocationProperties

  // ---------------------------------------------------------------------------
  // Small building blocks
  // ---------------------------------------------------------------------------

  /** Two plans, one-time before monthly, are already in priority order. */
  lemma InPriorityOrder(p1: DepositPlan, p2: DepositPlan)
    requires p1.planType == OneTime && p2.planType == Monthly
    ensures Prioritize([p1, p2]) == [p1, p2]
  {
    assert [p1, p2][..1] == [p1];
    assert OfType([p1], OneTime) == [p1] by {
      assert [p1][..0] == [];
    }
    assert OfType([p1], Monthly) == [] by {
      assert [p1][..0] == [];
    }
  }

  /** The pool of two deposits. */
  lemma PoolOfTwo(x: real, y: real)
    ensures DepositTotal([Deposit(x), Deposit(y)]) == x + y
  {
    assert [Deposit(x), Deposit(y)][..1] == [Deposit(x)];
    assert [Deposit(x)][..0] == [];
    assert DepositTotal([Deposit(x)]) == x;
  }

  /** Merging into nothing gives the merged map itself. */
  lemma MergeIntoEmpty(m: Portfolios)
    ensures Merge(map[], m) == m
  {
    assert Merge(map[], m).Keys == m.Keys;
  }

  /** Merging two maps over the same two portfolios adds them entry by entry. */
  lemma MergePairs(a: string, x1: real, x2: real, b: string, y1: real, y2: real)
    requires a != b
    ensures Merge(map[a := x1, b := y1], map[a := x2, b := y2]) == map[a := x1 + x2, b := y1 + y2]
  {
    assert Merge(map[a := x1, b := y1], map[a := x2, b := y2]).Keys == {a, b};
  }

  /** The walk over two plans, with both pot fills named, when the first leaves some of the pool. */
  lemma WalkTwo(p1: DepositPlan, p2: DepositPlan, remaining: real, fill: Fill, f1: Portfolios, f2: Portfolios, final: Progress)
    requires f1 == fill(p1.allocation, remaining) && remaining - Sum(f1) > 0.0
    requires f2 == fill(p2.allocation, remaining - Sum(f1))
    requires final == Progress(Merge(f1, f2), remaining - Sum(f1) - Sum(f2))
    ensures Walk([p1, p2], map[], remaining, fill) == final
  {
    MergeIntoEmpty(f1);
    WalkStep([p1, p2], map[], remaining, fill, f1, Progress(f1, remaining - Sum(f1)));
    assert [p1, p2][1..] == [p2];
    WalkStep([p2], f1, remaining - Sum(f1), fill, f2, final);
  }

  /** Two-portfolio shares of a non-zero total. */
  lemma SharesOfPair(a: string, x: real, b: string, y: real, t: real)
    requires a != b && t != 0.0
    ensures SharesOf(map[a := x, b := y], t) == map[a := x / t, b := y / t]
  {
    assert SharesOf(map[a := x, b := y], t).Keys == {a, b};
  }

  /** The weight ratio of a two-portfolio plan whose weights do not sum to zero. */
  lemma RatioOfPair(kind: PlanType, a: string, x: real, b: string, y: real, total: real)
    requires a != b && x + y == total && total != 0.0
    ensures AllocationRatio(DepositPlan(kind, map[a := x, b := y])) == map[a := x / total, b := y / total]
  {
    SumPair(a, x, b, y);
    SharesOfPair(a, x, b, y, total);
  }

  /**
   * A non-empty pool over a one-time plan and a monthly plan: the walk's
   * result when it uses the pool up, or that result with the leftover spread
   * over the monthly plan's ratio.
   */
  lemma AllocationOfPair(p1: DepositPlan, p2: DepositPlan, deposits: seq<Deposit>, w: Progress, ratio: Portfolios, r: Portfolios)
    requires p1.planType == OneTime && p2.planType == Monthly && deposits != []
    requires Walk([p1, p2], map[], DepositTotal(deposits), PotFill) == w
    requires w.remaining <= 0.0 ==> w.result == r
    requires w.remaining > 0.0 ==> AllocationRatio(p2) == ratio && Spread(w.result, ratio, w.remaining) == r
    ensures Allocation([p1, p2], deposits) == r
  {
    InPriorityOrder(p1, p2);
  }

  /** A non-empty pool over a single plan. */
  lemma AllocationOfOne(p: DepositPlan, deposits: seq<Deposit>, w: Progress, ratio: Portfolios, r: Portfolios)
    requires deposits != []
    requires Walk([p], map[], DepositTotal(deposits), PotFill) == w
    requires w.remaining <= 0.0 ==> w.result == r
    requires w.remaining > 0.0 ==> AllocationRatio(p) == ratio && Spread(w.result, ratio, w.remaining) == r
    ensures Allocation([p], deposits) == r
  {
    assert [p][..0] == [];
    assert Prioritize([p]) == [p] by {
      if p.planType == OneTime {
        assert OfType([p], OneTime) == [p];
      } else {
        assert OfType([p], Monthly) == [p];
      }
    }
  }

  /** The walk over a single plan. */
  lemma WalkOne(p: DepositPlan, remaining: real, fill: Fill, f: Portfolios)
    requires f == fill(p.allocation, remaining)
    ensures Walk([p], map[], remaining, fill) == Progress(f, remaining - Sum(f))
  {
    MergeIntoEmpty(f);
    WalkStep([p], map[], remaining, fill, f, Progress(f, remaining - Sum(f)));
    assert [p][1..] == [];
  }

  /** The pool of a single deposit. */
  lemma PoolOfOne(x: real)
    ensures DepositTotal([Deposit(x)]) == x
  {
    assert [Deposit(x)][..0] == [];
  }

  /** Merging a map over portfolios `a`, `b` with one over `c`, `b` adds the shared portfolio and keeps the others. */
  lemma MergeOverlap(a: string, x: real, b: string, y1: real, y2: real, c: string, z: real)
    requires a != b && b != c && a != c
    ensures Merge(map[a := x, b := y1], map[c := z, b := y2]) == map[a := x, c := z, b := y1 + y2]
  {
    assert Merge(map[a := x, b := y1], map[c := z, b := y2]).Keys == {a, b, c};
  }

  // ---------------------------------------------------------------------------
  // One-time {high: 10000, retirement: 500}, monthly {high: 0, retirement: 100};
  // deposits 10500 and 100
  // ---------------------------------------------------------------------------

  /** Both pots are given at least their capacity and fill to their limits; the pool is used up exactly. */
  lemma MainExampleWalk(high: string, retirement: string)
    requires high != retirement
    ensures Walk([DepositPlan(OneTime, map[high := 10000.0, retirement := 500.0]),
                  DepositPlan(Monthly, map[high := 0.0, retirement := 100.0])], map[], 10600.0, PotFill)
      == Progress(map[high := 10000.0, retirement := 600.0], 0.0)
  {
    var f1 := map[high := 10000.0, retirement := 500.0];
    var f2 := map[high := 0.0, retirement := 100.0];
    SumPair(high, 10000.0, retirement, 500.0);
    SumPair(high, 0.0, retirement, 100.0);
    PotFillToLimits(f1, 10600.0);
    PotFillToLimits(f2, 10600.0 - Sum(f1));
    MergePairs(high, 10000.0, 0.0, retirement, 500.0, 100.0);
    WalkTwo(DepositPlan(OneTime, f1), DepositPlan(Monthly, f2), 10600.0, PotFill, f1, f2,
            Progress(map[high := 10000.0, retirement := 600.0], 0.0));
  }

  /** The one-time plan takes 10500 and the monthly plan the last 100, all of it to retirement. */
  lemma MainExample(high: string, retirement: string)
    requires high != retirement
    ensures Allocation(
      [DepositPlan(OneTime, map[high := 10000.0, retirement := 500.0]),
       DepositPlan(Monthly, map[high := 0.0, retirement := 100.0])],
      [Deposit(10500.0), Deposit(100.0)])
      == map[high := 10000.0, retirement := 600.0]
  {
    PoolOfTwo(10500.0, 100.0);
    MainExampleWalk(high, retirement);
    AllocationOfPair(DepositPlan(OneTime, map[high := 10000.0, retirement := 500.0]),
                     DepositPlan(Monthly, map[high := 0.0, retirement := 100.0]),
                     [Deposit(10500.0), Deposit(100.0)],
                     Progress(map[high := 10000.0, retirement := 600.0], 0.0), map[],
                     map[high := 10000.0, retirement := 600.0]);
  }

  // ---------------------------------------------------------------------------
  // One-time {high: 10000, retirement: 500}, monthly {medium: 300, retirement: 100};
  // deposits 10000 and 600
  // ---------------------------------------------------------------------------

  /** The monthly pot takes the last 100 in its capacity shares 3/4 and 1/4. */
  lemma MixedMonthlyPot(medium: string, retirement: string)
    requires medium != retirement
    ensures PotFill(map[medium := 300.0, retirement := 100.0], 100.0) == map[medium := 75.0, retirement := 25.0]
  {
    var w := map[medium := 300.0, retirement := 100.0];
    SumPair(medium, 300.0, retirement, 100.0);
    PotFillWithinCapacity(w, 100.0);
    SharesOfPair(medium, 300.0, retirement, 100.0, 400.0);
    var shares := map[medium := 300.0 / 400.0, retirement := 100.0 / 400.0];
    SpreadEntries(map[], shares, 100.0);
    assert Spread(map[], shares, 100.0).Keys == {medium, retirement};
  }

  /** The one-time pot fills to its limits and the monthly pot takes the remaining 100. */
  lemma MixedWalk(high: string, medium: string, retirement: string)
    requires high != medium && medium != retirement && high != retirement
    ensures Walk([DepositPlan(OneTime, map[high := 10000.0, retirement := 500.0]),
                  DepositPlan(Monthly, map[medium := 300.0, retirement := 100.0])], map[], 10600.0, PotFill)
      == Progress(map[high := 10000.0, medium := 75.0, retirement := 525.0], 0.0)
  {
    var f1 := map[high := 10000.0, retirement := 500.0];
    var f2 := map[medium := 75.0, retirement := 25.0];
    SumPair(high, 10000.0, retirement, 500.0);
    SumPair(medium, 75.0, retirement, 25.0);
    PotFillToLimits(f1, 10600.0);
    MixedMonthlyPot(medium, retirement);
    MergeOverlap(high, 10000.0, retirement, 500.0, 25.0, medium, 75.0);
    WalkTwo(DepositPlan(OneTime, f1), DepositPlan(Monthly, map[medium := 300.0, retirement := 100.0]),
            10600.0, PotFill, f1, f2, Progress(map[high := 10000.0, medium := 75.0, retirement := 525.0], 0.0));
  }

  /** Retirement collects from both plans; medium only from the monthly one. */
  lemma MixedPortfolioExample(high: string, medium: string, retirement: string)
    requires high != medium && medium != retirement && high != retirement
    ensures Allocation(
      [DepositPlan(OneTime, map[high := 10000.0, retirement := 500.0]),
       DepositPlan(Monthly, map[medium := 300.0, retirement := 100.0])],
      [Deposit(10000.0), Deposit(600.0)])
      == map[high := 10000.0, medium := 75.0, retirement := 525.0]
  {
    PoolOfTwo(10000.0, 600.0);
    MixedWalk(high, medium, retirement);
    AllocationOfPair(DepositPlan(OneTime, map[high := 10000.0, retirement := 500.0]),
                     DepositPlan(Monthly, map[medium := 300.0, retirement := 100.0]),
                     [Deposit(10000.0), Deposit(600.0)],
                     Progress(map[high := 10000.0, medium := 75.0, retirement := 525.0], 0.0), map[],
                     map[high := 10000.0, medium := 75.0, retirement := 525.0]);
  }

  // ---------------------------------------------------------------------------
  // One-time {high: 500, retirement: 300}, monthly {high: 200, retirement: 100};
  // a deposit of 1200
  // ---------------------------------------------------------------------------

  /** Both pots fill to their limits and 100 is left over. */
  lemma ExcessToMonthlyWalk(high: string, retirement: string)
    requires high != retirement
    ensures Walk([DepositPlan(OneTime, map[high := 500.0, retirement := 300.0]),
                  DepositPlan(Monthly, map[high := 200.0, retirement := 100.0])], map[], 1200.0, PotFill)
      == Progress(map[high := 700.0, retirement := 400.0], 100.0)
  {
    var f1 := map[high := 500.0, retirement := 300.0];
    var f2 := map[high := 200.0, retirement := 100.0];
    SumPair(high, 500.0, retirement, 300.0);
    SumPair(high, 200.0, retirement, 100.0);
    PotFillToLimits(f1, 1200.0);
    PotFillToLimits(f2, 1200.0 - Sum(f1));
    MergePairs(high, 500.0, 200.0, retirement, 300.0, 100.0);
    WalkTwo(DepositPlan(OneTime, f1), DepositPlan(Monthly, f2), 1200.0, PotFill, f1, f2,
            Progress(map[high := 700.0, retirement := 400.0], 100.0));
  }

  /** The monthly plan's ratio: 2/3 and 1/3. */
  lemma ExcessToMonthlyRatio(high: string, retirement: string)
    requires high != retirement
    ensures AllocationRatio(DepositPlan(Monthly, map[high := 200.0, retirement := 100.0]))
      == map[high := 200.0 / 300.0, retirement := 100.0 / 300.0]
  {
    RatioOfPair(Monthly, high, 200.0, retirement, 100.0, 300.0);
  }

  /** Spreading 100 over the ratio 2/3 and 1/3 on top of 700 and 400. */
  lemma ExcessToMonthlySpread(high: string, retirement: string)
    requires high != retirement
    ensures Spread(map[high := 700.0, retirement := 400.0], map[high := 200.0 / 300.0, retirement := 100.0 / 300.0], 100.0)
      == map[high := 500.0 + 400.0 * 2.0 / 3.0, retirement := 300.0 + 400.0 / 3.0]
  {
    SpreadEntries(map[high := 700.0, retirement := 400.0], map[high := 200.0 / 300.0, retirement := 100.0 / 300.0], 100.0);
  }

  /** Everything past the one-time plan's 800 goes to the monthly plan's portfolios, in its ratio. */
  lemma ExcessToMonthly(high: string, retirement: string)
    requires high != retirement
    ensures Allocation(
      [DepositPlan(OneTime, map[high := 500.0, retirement := 300.0]),
       DepositPlan(Monthly, map[high := 200.0, retirement := 100.0])],
      [Deposit(1200.0)])
      == map[high := 500.0 + 400.0 * 2.0 / 3.0, retirement := 300.0 + 400.0 / 3.0]
  {
    PoolOfOne(1200.0);
    ExcessToMonthlyWalk(high, retirement);
    ExcessToMonthlyRatio(high, retirement);
    ExcessToMonthlySpread(high, retirement);
    AllocationOfPair(DepositPlan(OneTime, map[high := 500.0, retirement := 300.0]),
                     DepositPlan(Monthly, map[high := 200.0, retirement := 100.0]),
                     [Deposit(1200.0)],
                     Progress(map[high := 700.0, retirement := 400.0], 100.0),
                     map[high := 200.0 / 300.0, retirement := 100.0 / 300.0],
                     map[high := 500.0 + 400.0 * 2.0 / 3.0, retirement := 300.0 + 400.0 / 3.0]);
  }

  // ---------------------------------------------------------------------------
  // One-time {high: 0, retirement: 0}, monthly {high: 100, retirement: 50};
  // a deposit of 300
  // ---------------------------------------------------------------------------

  /** A pot whose weights are all zero takes nothing and keeps its portfolios at 0. */
  lemma ZeroWeightPot(high: string, retirement: string, amount: real)
    requires high != retirement
    ensures PotFill(map[high := 0.0, retirement := 0.0], amount) == map[high := 0.0, retirement := 0.0]
  {
    SumPair(high, 0.0, retirement, 0.0);
    PotFillZeroCapacity(map[high := 0.0, retirement := 0.0], amount);
    assert (map p | p in map[high := 0.0, retirement := 0.0] :: 0.0) == map[high := 0.0, retirement := 0.0];
  }

  /** The zero-capacity one-time pot takes nothing; the monthly pot fills and 150 is left over. */
  lemma ZeroAllocationPlanWalk(high: string, retirement: string)
    requires high != retirement
    ensures Walk([DepositPlan(OneTime, map[high := 0.0, retirement := 0.0]),
                  DepositPlan(Monthly, map[high := 100.0, retirement := 50.0])], map[], 300.0, PotFill)
      == Progress(map[high := 100.0, retirement := 50.0], 150.0)
  {
    var f1 := map[high := 0.0, retirement := 0.0];
    var f2 := map[high := 100.0, retirement := 50.0];
    SumPair(high, 0.0, retirement, 0.0);
    SumPair(high, 100.0, retirement, 50.0);
    ZeroWeightPot(high, retirement, 300.0);
    PotFillToLimits(f2, 300.0 - Sum(f1));
    MergePairs(high, 0.0, 100.0, retirement, 0.0, 50.0);
    WalkTwo(DepositPlan(OneTime, f1), DepositPlan(Monthly, f2), 300.0, PotFill, f1, f2,
            Progress(map[high := 100.0, retirement := 50.0], 150.0));
  }

  /** The monthly plan's ratio: 2/3 and 1/3. */
  lemma ZeroAllocationPlanRatio(high: string, retirement: string)
    requires high != retirement
    ensures AllocationRatio(DepositPlan(Monthly, map[high := 100.0, retirement := 50.0]))
      == map[high := 100.0 / 150.0, retirement := 50.0 / 150.0]
  {
    RatioOfPair(Monthly, high, 100.0, retirement, 50.0, 150.0);
  }

  /** Spreading 150 over the ratio 2/3 and 1/3 on top of 100 and 50. */
  lemma ZeroAllocationPlanSpread(high: string, retirement: string)
    requires high != retirement
    ensures Spread(map[high := 100.0, retirement := 50.0], map[high := 100.0 / 150.0, retirement := 50.0 / 150.0], 150.0)
      == map[high := 200.0, retirement := 100.0]
  {
    SpreadEntries(map[high := 100.0, retirement := 50.0], map[high := 100.0 / 150.0, retirement := 50.0 / 150.0], 150.0);
  }

  /** A plan of zero weights is skipped; the monthly plan takes the whole deposit. */
  lemma ZeroAllocationPlan(high: string, retirement: string)
    requires high != retirement
    ensures Allocation(
      [DepositPlan(OneTime, map[high := 0.0, retirement := 0.0]),
       DepositPlan(Monthly, map[high := 100.0, retirement := 50.0])],
      [Deposit(300.0)])
      == map[high := 200.0, retirement := 100.0]
  {
    PoolOfOne(300.0);
    ZeroAllocationPlanWalk(high, retirement);
    ZeroAllocationPlanRatio(high, retirement);
    ZeroAllocationPlanSpread(high, retirement);
    AllocationOfPair(DepositPlan(OneTime, map[high := 0.0, retirement := 0.0]),
                     DepositPlan(Monthly, map[high := 100.0, retirement := 50.0]),
                     [Deposit(300.0)],
                     Progress(map[high := 100.0, retirement := 50.0], 150.0),
                     map[high := 100.0 / 150.0, retirement := 50.0 / 150.0],
                     map[high := 200.0, retirement := 100.0]);
  }

  // ---------------------------------------------------------------------------
  // A single plan
  // ---------------------------------------------------------------------------

  /** The monthly pot fills to its limits and 500 is left over. */
  lemma OnlyMonthlyWalk(high: string, retirement: string)
    requires high != retirement
    ensures Walk([DepositPlan(Monthly, map[high := 600.0, retirement := 400.0])], map[], 1500.0, PotFill)
      == Progress(map[high := 600.0, retirement := 400.0], 500.0)
  {
    var w := map[high := 600.0, retirement := 400.0];
    SumPair(high, 600.0, retirement, 400.0);
    PotFillToLimits(w, 1500.0);
    WalkOne(DepositPlan(Monthly, w), 1500.0, PotFill, w);
  }

  /** The plan's ratio: 0.6 and 0.4. */
  lemma OnlyMonthlyRatio(high: string, retirement: string)
    requires high != retirement
    ensures AllocationRatio(DepositPlan(Monthly, map[high := 600.0, retirement := 400.0]))
      == map[high := 600.0 / 1000.0, retirement := 400.0 / 1000.0]
  {
    RatioOfPair(Monthly, high, 600.0, retirement, 400.0, 1000.0);
  }

  /** Spreading 500 over the ratio 0.6 and 0.4 on top of 600 and 400. */
  lemma OnlyMonthlySpread(high: string, retirement: string)
    requires high != retirement
    ensures Spread(map[high := 600.0, retirement := 400.0], map[high := 600.0 / 1000.0, retirement := 400.0 / 1000.0], 500.0)
      == map[high := 600.0 + 500.0 * 0.6, retirement := 400.0 + 500.0 * 0.4]
  {
    SpreadEntries(map[high := 600.0, retirement := 400.0], map[high := 600.0 / 1000.0, retirement := 400.0 / 1000.0], 500.0);
  }

  /** Monthly {high: 600, retirement: 400} and 1500: the pot fills and the leftover 500 follows 0.6 and 0.4. */
  lemma OnlyMonthlyPlan(high: string, retirement: string)
    requires high != retirement
    ensures Allocation([DepositPlan(Monthly, map[high := 600.0, retirement := 400.0])], [Deposit(1500.0)])
      == map[high := 600.0 + 500.0 * 0.6, retirement := 400.0 + 500.0 * 0.4]
  {
    PoolOfOne(1500.0);
    OnlyMonthlyWalk(high, retirement);
    OnlyMonthlyRatio(high, retirement);
    OnlyMonthlySpread(high, retirement);
    AllocationOfOne(DepositPlan(Monthly, map[high := 600.0, retirement := 400.0]), [Deposit(1500.0)],
                    Progress(map[high := 600.0, retirement := 400.0], 500.0),
                    map[high := 600.0 / 1000.0, retirement := 400.0 / 1000.0],
                    map[high := 600.0 + 500.0 * 0.6, retirement := 400.0 + 500.0 * 0.4]);
  }

  /** The pot takes 75 in its capacity shares 2/3 and 1/3. */
  lemma SmallAmountsPot(high: string, retirement: string)
    requires high != retirement
    ensures PotFill(map[high := 100.0, retirement := 50.0], 75.0) == map[high := 50.0, retirement := 25.0]
  {
    var w := map[high := 100.0, retirement := 50.0];
    SumPair(high, 100.0, retirement, 50.0);
    PotFillWithinCapacity(w, 75.0);
    SharesOfPair(high, 100.0, retirement, 50.0, 150.0);
    var shares := map[high := 100.0 / 150.0, retirement := 50.0 / 150.0];
    SpreadEntries(map[], shares, 75.0);
    assert Spread(map[], shares, 75.0).Keys == {high, retirement};
  }

  /** The walk over the single plan uses the deposit up. */
  lemma SmallAmountsWalk(high: string, retirement: string)
    requires high != retirement
    ensures Walk([DepositPlan(OneTime, map[high := 100.0, retirement := 50.0])], map[], 75.0, PotFill)
      == Progress(map[high := 50.0, retirement := 25.0], 0.0)
  {
    SumPair(high, 50.0, retirement, 25.0);
    SmallAmountsPot(high, retirement);
    WalkOne(DepositPlan(OneTime, map[high := 100.0, retirement := 50.0]), 75.0, PotFill, map[high := 50.0, retirement := 25.0]);
  }

  /** One-time {high: 100, retirement: 50} and 75: half the capacity, in the shares 2/3 and 1/3. */
  lemma SmallAmounts(high: string, retirement: string)
    requires high != retirement
    ensures Allocation([DepositPlan(OneTime, map[high := 100.0, retirement := 50.0])], [Deposit(75.0)])
      == map[high := 50.0, retirement := 25.0]
  {
    PoolOfOne(75.0);
    SmallAmountsWalk(high, retirement);
    AllocationOfOne(DepositPlan(OneTime, map[high := 100.0, retirement := 50.0]), [Deposit(75.0)],
                    Progress(map[high := 50.0, retirement := 25.0], 0.0), map[], map[high := 50.0, retirement := 25.0]);
  }

  /** The pot takes nothing and keeps both portfolios at 0. */
  lemma ZeroDepositPot(high: string, retirement: string)
    requires high != retirement
    ensures PotFill(map[high := 1000.0, retirement := 500.0], 0.0) == map[high := 0.0, retirement := 0.0]
  {
    var w := map[high := 1000.0, retirement := 500.0];
    SumPair(high, 1000.0, retirement, 500.0);
    PotFillWithinCapacity(w, 0.0);
    SharesOfPair(high, 1000.0, retirement, 500.0, 1500.0);
    var shares := map[high := 1000.0 / 1500.0, retirement := 500.0 / 1500.0];
    SpreadEntries(map[], shares, 0.0);
    assert Spread(map[], shares, 0.0).Keys == {high, retirement};
  }

  /** The walk over the single plan uses the deposit up. */
  lemma ZeroDepositWalk(high: string, retirement: string)
    requires high != retirement
    ensures Walk([DepositPlan(OneTime, map[high := 1000.0, retirement := 500.0])], map[], 0.0, PotFill)
      == Progress(map[high := 0.0, retirement := 0.0], 0.0)
  {
    SumPair(high, 0.0, retirement, 0.0);
    ZeroDepositPot(high, retirement);
    WalkOne(DepositPlan(OneTime, map[high := 1000.0, retirement := 500.0]), 0.0, PotFill, map[high := 0.0, retirement := 0.0]);
  }

  /** One-time {high: 1000, retirement: 500} and a deposit of 0: both portfolios appear, with 0. */
  lemma ZeroDeposit(high: string, retirement: string)
    requires high != retirement
    ensures Allocation([DepositPlan(OneTime, map[high := 1000.0, retirement := 500.0])], [Deposit(0.0)])
      == map[high := 0.0, retirement := 0.0]
  {
    PoolOfOne(0.0);
    ZeroDepositWalk(high, retirement);
    AllocationOfOne(DepositPlan(OneTime, map[high := 1000.0, retirement := 500.0]), [Deposit(0.0)],
                    Progress(map[high := 0.0, retirement := 0.0], 0.0), map[], map[high := 0.0, retirement := 0.0]);
  }

  // ---------------------------------------------------------------------------
  // Deposits that fill a single plan exactly
  // ---------------------------------------------------------------------------

  /** The walk over a plan given exactly its capacity ends at the plan's weights, with nothing left. */
  lemma FilledToLimitsWalk(high: string, retirement: string, x: real, y: real)
    requires high != retirement && x + y != 0.0
    ensures Walk([DepositPlan(OneTime, map[high := x, retirement := y])], map[], x + y, PotFill)
      == Progress(map[high := x, retirement := y], 0.0)
  {
    var w := map[high := x, retirement := y];
    SumPair(high, x, retirement, y);
    PotFillToLimits(w, x + y);
    WalkOne(DepositPlan(OneTime, w), x + y, PotFill, w);
  }

  /** One-time {high: 1000, retirement: 500} and a deposit of 1500: every portfolio at its limit. */
  lemma ExactAllocation(high: string, retirement: string)
    requires high != retirement
    ensures Allocation([DepositPlan(OneTime, map[high := 1000.0, retirement := 500.0])], [Deposit(1500.0)])
      == map[high := 1000.0, retirement := 500.0]
  {
    PoolOfOne(1500.0);
    FilledToLimitsWalk(high, retirement, 1000.0, 500.0);
    AllocationOfOne(DepositPlan(OneTime, map[high := 1000.0, retirement := 500.0]), [Deposit(1500.0)],
                    Progress(map[high := 1000.0, retirement := 500.0], 0.0), map[], map[high := 1000.0, retirement := 500.0]);
  }

  /** The pool of three deposits. */
  lemma PoolOfThree(x: real, y: real, z: real)
    ensures DepositTotal([Deposit(x), Deposit(y), Deposit(z)]) == x + y + z
  {
    assert [Deposit(x), Deposit(y), Deposit(z)][..2] == [Deposit(x), Deposit(y)];
    PoolOfTwo(x, y);
  }

  /** One-time {high: 800, retirement: 200} and deposits 500, 300 and 200: the pooled 1000 fills the plan. */
  lemma MultipleDeposits(high: string, retirement: string)
    requires high != retirement
    ensures Allocation([DepositPlan(OneTime, map[high := 800.0, retirement := 200.0])],
                       [Deposit(500.0), Deposit(300.0), Deposit(200.0)])
      == map[high := 800.0, retirement := 200.0]
  {
    PoolOfThree(500.0, 300.0, 200.0);
    FilledToLimitsWalk(high, retirement, 800.0, 200.0);
    AllocationOfOne(DepositPlan(OneTime, map[high := 800.0, retirement := 200.0]),
                    [Deposit(500.0), Deposit(300.0), Deposit(200.0)],
                    Progress(map[high := 800.0, retirement := 200.0], 0.0), map[], map[high := 800.0, retirement := 200.0]);
  }

  // ---------------------------------------------------------------------------
  // One-time {high: 1000}; a deposit of 800
  // ---------------------------------------------------------------------------

  /** A single-portfolio pot takes the whole amount into its one portfolio. */
  lemma SinglePortfolioPot(high: string)
    ensures PotFill(map[high := 1000.0], 800.0) == map[high := 800.0]
  {
    var w := map[high := 1000.0];
    SumUpdate(map[], high, 1000.0);
    PotFillWithinCapacity(w, 800.0);
    var shares := map[high := 1000.0 / 1000.0];
    assert SharesOf(w, 1000.0) == shares;
    SpreadEntries(map[], shares, 800.0);
    assert Spread(map[], shares, 800.0).Keys == {high};
  }

  /** One-time {high: 1000} and 800: all of it to the one portfolio. */
  lemma SinglePortfolio(high: string)
    ensures Allocation([DepositPlan(OneTime, map[high := 1000.0])], [Deposit(800.0)]) == map[high := 800.0]
  {
    PoolOfOne(800.0);
    SumUpdate(map[], high, 800.0);
    SinglePortfolioPot(high);
    WalkOne(DepositPlan(OneTime, map[high := 1000.0]), 800.0, PotFill, map[high := 800.0]);
    AllocationOfOne(DepositPlan(OneTime, map[high := 1000.0]), [Deposit(800.0)],
                    Progress(map[high := 800.0], 0.0), map[], map[high := 800.0]);
  }

  // ---------------------------------------------------------------------------
  // One-time {large: 1000000, small: 500000}; a deposit of 2000000
  // ---------------------------------------------------------------------------

  /** The pot fills to its limits and 500000 is left over. */
  lemma LargeNumbersWalk(large: string, small: string)
    requires large != small
    ensures Walk([DepositPlan(OneTime, map[large := 1000000.0, small := 500000.0])], map[], 2000000.0, PotFill)
      == Progress(map[large := 1000000.0, small := 500000.0], 500000.0)
  {
    var w := map[large := 1000000.0, small := 500000.0];
    SumPair(large, 1000000.0, small, 500000.0);
    PotFillToLimits(w, 2000000.0);
    WalkOne(DepositPlan(OneTime, w), 2000000.0, PotFill, w);
  }

  /** The plan's ratio: 2/3 and 1/3. */
  lemma LargeNumbersRatio(large: string, small: string)
    requires large != small
    ensures AllocationRatio(DepositPlan(OneTime, map[large := 1000000.0, small := 500000.0]))
      == map[large := 1000000.0 / 1500000.0, small := 500000.0 / 1500000.0]
  {
    RatioOfPair(OneTime, large, 1000000.0, small, 500000.0, 1500000.0);
  }

  /** Spreading 500000 at 2/3 and 1/3 on top of the limits. */
  lemma LargeNumbersSpread(large: string, small: string)
    requires large != small
    ensures Spread(map[large := 1000000.0, small := 500000.0],
                   map[large := 1000000.0 / 1500000.0, small := 500000.0 / 1500000.0], 500000.0)
      == map[large := 1000000.0 + 500000.0 * 2.0 / 3.0, small := 500000.0 + 500000.0 * 1.0 / 3.0]
  {
    SpreadEntries(map[large := 1000000.0, small := 500000.0],
                  map[large := 1000000.0 / 1500000.0, small := 500000.0 / 1500000.0], 500000.0);
  }

  /** One-time {large: 1000000, small: 500000} and 2000000: the leftover 500000 follows the plan's own ratio. */
  lemma LargeNumbers(large: string, small: string)
    requires large != small
    ensures Allocation([DepositPlan(OneTime, map[large := 1000000.0, small := 500000.0])], [Deposit(2000000.0)])
      == map[large := 1000000.0 + 500000.0 * 2.0 / 3.0, small := 500000.0 + 500000.0 * 1.0 / 3.0]
  {
    PoolOfOne(2000000.0);
    LargeNumbersWalk(large, small);
    LargeNumbersRatio(large, small);
    LargeNumbersSpread(large, small);
    AllocationOfOne(DepositPlan(OneTime, map[large := 1000000.0, small := 500000.0]), [Deposit(2000000.0)],
                    Progress(map[large := 1000000.0, small := 500000.0], 500000.0),
                    map[large := 1000000.0 / 1500000.0, small := 500000.0 / 1500000.0],
                    map[large := 1000000.0 + 500000.0 * 2.0 / 3.0, small := 500000.0 + 500000.0 * 1.0 / 3.0]);
  }

  // ---------------------------------------------------------------------------
  // A pot allocated to three times
  // ---------------------------------------------------------------------------

  /** A dictionary with three distinct keys sums to its three values. */
  lemma SumOfThree(a: string, x: real, b: string, y: real, c: string, z: real)
    requires a != b && b != c && a != c
    ensures Sum(map[a := x, b := y, c := z]) == x + y + z
  {
    SumPair(a, x, b, y);
    SumUpdate(map[a := x, b := y], c, z);
  }

  /**
   * Allocates 250, then 400, then the remaining capacity plus 100 to a pot
   * with total limit 1750 and total filled 350: the first two fit, the third
   * leaves exactly 100 over, and the pot ends full.
   */
  method AllocateThreeTimes(pot: DepositPot) returns (excess1: real, excess2: real, excess3: real, full: bool)
    requires Sum(pot.limit) == 1750.0 && Sum(pot.filled) == 350.0
    modifies pot
    ensures excess1 == 0.0 && excess2 == 0.0 && excess3 == 100.0
    ensures full && Sum(pot.filled) == Sum(pot.limit)
  {
    excess1 := pot.AllocateDeposit(250.0);
    assert Sum(pot.filled) == 600.0;
    excess2 := pot.AllocateDeposit(400.0);
    assert Sum(pot.filled) == 1000.0;
    var remaining := pot.RemainingAllocation();
    excess3 := pot.AllocateDeposit(remaining + 100.0);
    full := pot.IsFull();
  }

  /**
   * A pot with limits {a: 1000, b: 500, c: 250}, filled {a: 200, b: 100,
   * c: 50}, is allocated 250, then 400, then its remaining capacity plus 100:
   * the first two fit, the third leaves exactly 100 over, and the pot ends full.
   */
  method MultipleAllocations(a: string, b: string, c: string)
    returns (excess1: real, excess2: real, excess3: real, full: bool)
    requires a != b && b != c && a != c
    ensures excess1 == 0.0 && excess2 == 0.0
    ensures excess3 == 100.0
    ensures full
  {
    var limit := map[a := 1000.0, b := 500.0, c := 250.0];
    var filled := map[a := 200.0, b := 100.0, c := 50.0];
    SumOfThree(a, 1000.0, b, 500.0, c, 250.0);
    SumOfThree(a, 200.0, b, 100.0, c, 50.0);
    var pot := new DepositPot(limit, filled);
    excess1, excess2, excess3, full := AllocateThreeTimes(pot);
  }
}
