/**
 * Deposit plans: a plan type (one-time or monthly) and a target weight per
 * portfolio. The plan's total weight and its weight ratio (each weight's share
 * of the total, or 0.0 everywhere when the total is zero).
 */
module DepositPlans {
  import opened Amounts

  datatype PlanType = OneTime | Monthly

  /** A plan: its type and the target weight (a capacity amount) of each portfolio. */
  datatype DepositPlan = DepositPlan(planType: PlanType, allocation: Portfolios)

  // ---------------------------------------------------------------------------
  // Shares of a total: the ratio computation shared by plans and pots
  // ---------------------------------------------------------------------------

  /**
   * Each value of `m` divided by `total`, over exactly the keys of `m`; when
   * `total` is zero every key maps to 0.0 and nothing is divided.
   */
  function SharesOf(m: Portfolios, total: real): Portfolios
  {
    if total == 0.0 then map p | p in m :: 0.0
    else map p | p in m :: m[p] / total
  }

  /** The share of each key of `m` in the sum of `m`. */
  ghost function Shares(m: Portfolios): (r: Portfolios)
    ensures r.Keys == m.Keys
    ensures Sum(m) == 0.0 ==> forall p | p in r :: r[p] == 0.0
  {
    SharesOf(m, Sum(m))
  }

  /** Dividing by a non-zero total is scaling by its inverse. */
  lemma SharesAsScale(m: Portfolios, t: real)
    requires t != 0.0
    ensures SharesOf(m, t) == Scale(m, 1.0 / t)
  {
    var lhs := SharesOf(m, t);
    var rhs := Scale(m, 1.0 / t);
    assert lhs.Keys == rhs.Keys;
    forall p | p in lhs
      ensures lhs[p] == rhs[p]
    {
      assert m[p] / t == m[p] * (1.0 / t);
    }
  }

  /** With a non-zero total, the shares add up to exactly 1. */
  lemma SharesSumToOne(m: Portfolios)
    requires Sum(m) != 0.0
    ensures Sum(Shares(m)) == 1.0
  {
    var t := Sum(m);
    SharesAsScale(m, t);
    SumScale(m, 1.0 / t);
    assert Sum(Shares(m)) == t * (1.0 / t);
    assert t * (1.0 / t) == 1.0;
  }

  /** A fraction of a non-negative whole lies between 0 and 1. */
  lemma FractionBounds(w: real, t: real)
    requires 0.0 <= w <= t && t != 0.0
    ensures 0.0 <= w / t <= 1.0
  {
  }

  /** With non-negative values, every share lies in [0, 1]. */
  lemma SharesBounded(m: Portfolios)
    requires NonNegative(m)
    ensures forall p | p in Shares(m) :: 0.0 <= Shares(m)[p] <= 1.0
  {
    SumBoundsEntries(m);
    var t := Sum(m);
    forall p | p in Shares(m)
      ensures 0.0 <= Shares(m)[p] <= 1.0
    {
      if t != 0.0 {
        FractionBounds(m[p], t);
      }
    }
  }

  /** The two facts above, each under its own hypothesis. */
  lemma SharesProperties(m: Portfolios)
    ensures Sum(m) != 0.0 ==> Sum(Shares(m)) == 1.0
    ensures NonNegative(m) ==> forall p | p in Shares(m) :: 0.0 <= Shares(m)[p] <= 1.0
  {
    if Sum(m) != 0.0 {
      SharesSumToOne(m);
    }
    if NonNegative(m) {
      SharesBounded(m);
    }
  }

  /** A single portfolio with non-zero weight takes the whole share. */
  lemma SharesSingle(p: string, w: real)
    requires w != 0.0
    ensures Shares(map[p := w]) == map[p := 1.0]
  {
    var m := map[p := w];
    SumUpdate(map[], p, w);
    assert Sum(m) == w;
    assert w / w == 1.0;
    assert Shares(m)[p] == 1.0;
  }

  // ---------------------------------------------------------------------------
  // The plan's getters
  // ---------------------------------------------------------------------------

  /** The sum of the plan's weights; with non-negative weights it is non-negative and bounds each weight. */
  ghost function TotalAllocation(plan: DepositPlan): (t: real)
    ensures NonNegative(plan.allocation) ==> 0.0 <= t
    ensures NonNegative(plan.allocation) ==> forall p | p in plan.allocation :: plan.allocation[p] <= t
  {
    if NonNegative(plan.allocation) then
      SumBoundsEntries(plan.allocation);
      Sum(plan.allocation)
    else
      Sum(plan.allocation)
  }

  /**
   * The plan's weight ratio: every portfolio of the plan maps to its weight's
   * share of the total weight, or to 0.0 when the total is zero.
   */
  ghost function AllocationRatio(plan: DepositPlan): (r: Portfolios)
    ensures r.Keys == plan.allocation.Keys
    ensures TotalAllocation(plan) == 0.0 ==> forall p | p in r :: r[p] == 0.0
    ensures TotalAllocation(plan) != 0.0 ==> Sum(r) == 1.0
    ensures NonNegative(plan.allocation) ==> forall p | p in r :: 0.0 <= r[p] <= 1.0
  {
    SharesProperties(plan.allocation);
    Shares(plan.allocation)
  }

  /** The plan's weight ratio, computed as the code computes it: sum the weights, then divide. */
  method ComputeAllocationRatio(plan: DepositPlan) returns (r: Portfolios)
    ensures r == AllocationRatio(plan)
  {
    var total := SumValues(plan.allocation);
    r := SharesOf(plan.allocation, total);
  }
}
