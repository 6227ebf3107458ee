/**
 * The deposit pot: a per-plan capacity tracker. It holds a fixed limit per
 * portfolio and the amount filled so far per portfolio. Allocating a deposit
 * clamps it to the pot's aggregate remaining capacity and spreads the absorbed
 * part over the limit's portfolios in proportion to their share of the total
 * limit; the part that does not fit is returned as excess.
 */
module DepositPots {
  import opened Amounts
  import opened DepositPlans

  // ---------------------------------------------------------------------------
  // Specification of one allocation
  // ---------------------------------------------------------------------------

  /** The part of `amount` a pot with aggregate remaining capacity `remaining` takes in. */
  function Absorbed(amount: real, remaining: real): real
  {
    if amount > remaining then remaining else amount
  }

  /**
   * The part of `amount` that does not fit: together with the absorbed part it
   * makes up the whole amount, it is never negative, and it is positive exactly
   * when the amount exceeds the remaining capacity.
   */
  function Excess(amount: real, remaining: real): (e: real)
    ensures e >= 0.0
    ensures e + Absorbed(amount, remaining) == amount
    ensures e > 0.0 <==> amount > remaining
  {
    if amount > remaining then amount - remaining else 0.0
  }

  /**
   * `filled` with each portfolio of `ratios` raised by its ratio times
   * `absorbed`, a portfolio without a filled entry starting from 0.0.
   */
  function Spread(filled: Portfolios, ratios: Portfolios, absorbed: real): Portfolios
  {
    Merge(filled, Scale(ratios, absorbed))
  }

  /**
   * Spreading touches exactly the ratio portfolios: each gains its ratio times
   * the absorbed amount, starting from 0.0 when it had no filled entry, and
   * every other filled entry keeps its value.
   */
  lemma SpreadEntries(filled: Portfolios, ratios: Portfolios, absorbed: real)
    ensures Spread(filled, ratios, absorbed).Keys == filled.Keys + ratios.Keys
    ensures forall p | p in ratios ::
      Spread(filled, ratios, absorbed)[p] == Get(filled, p) + ratios[p] * absorbed
    ensures forall p | p in filled && p !in ratios ::
      Spread(filled, ratios, absorbed)[p] == filled[p]
  {
    MergeScaleEntries(filled, ratios, absorbed);
  }

  /** Spreading adds the ratios' sum times the absorbed amount to the total. */
  lemma SpreadTotal(filled: Portfolios, ratios: Portfolios, absorbed: real)
    ensures Sum(Spread(filled, ratios, absorbed)) == Sum(filled) + Sum(ratios) * absorbed
  {
    SumMerge(filled, Scale(ratios, absorbed));
    SumScale(ratios, absorbed);
  }

  /**
   * The filled amounts after allocating `amount` to a pot with limits `limit`
   * and filled amounts `filled`: every limit portfolio gains its capacity share
   * of the absorbed amount.
   */
  ghost function Allocated(limit: Portfolios, filled: Portfolios, amount: real): Portfolios
  {
    Spread(filled, Shares(limit), Absorbed(amount, Sum(limit) - Sum(filled)))
  }

  /** Allocation adds the limit's portfolios to the filled ones and leaves every other filled entry as it was. */
  lemma AllocateKeepsOtherPortfolios(limit: Portfolios, filled: Portfolios, amount: real)
    ensures Allocated(limit, filled, amount).Keys == filled.Keys + limit.Keys
    ensures forall p | p !in limit :: Get(Allocated(limit, filled, amount), p) == Get(filled, p)
  {
    SpreadEntries(filled, Shares(limit), Absorbed(amount, Sum(limit) - Sum(filled)));
  }

  /**
   * The total filled amount grows by exactly the absorbed amount when the
   * limits do not sum to zero, and does not change when they do.
   */
  lemma AllocatedTotal(limit: Portfolios, filled: Portfolios, amount: real)
    ensures Sum(limit) != 0.0 ==>
      Sum(Allocated(limit, filled, amount)) == Sum(filled) + Absorbed(amount, Sum(limit) - Sum(filled))
    ensures Sum(limit) == 0.0 ==> Sum(Allocated(limit, filled, amount)) == Sum(filled)
  {
    SpreadTotal(filled, Shares(limit), Absorbed(amount, Sum(limit) - Sum(filled)));
    if Sum(limit) != 0.0 {
      SharesSumToOne(limit);
    } else {
      SumZeros(Shares(limit));
    }
  }

  /** Allocating at least the remaining capacity leaves the pot exactly full. */
  lemma AllocateFillsPot(limit: Portfolios, filled: Portfolios, amount: real)
    requires Sum(limit) != 0.0
    requires amount >= Sum(limit) - Sum(filled)
    ensures Sum(limit) - Sum(Allocated(limit, filled, amount)) == 0.0
  {
    AllocatedTotal(limit, filled, amount);
  }

  /**
   * An amount within the remaining capacity (a negative one included) leaves no
   * excess and moves the total filled amount by exactly that amount.
   */
  lemma AllocateWithinCapacity(limit: Portfolios, filled: Portfolios, amount: real)
    requires Sum(limit) != 0.0
    requires amount <= Sum(limit) - Sum(filled)
    ensures Excess(amount, Sum(limit) - Sum(filled)) == 0.0
    ensures Sum(Allocated(limit, filled, amount)) == Sum(filled) + amount
  {
    AllocatedTotal(limit, filled, amount);
  }

  /** When nothing is absorbed, every portfolio keeps its filled value. */
  lemma AllocateNothing(limit: Portfolios, filled: Portfolios, amount: real)
    requires Absorbed(amount, Sum(limit) - Sum(filled)) == 0.0
    ensures forall p :: Get(Allocated(limit, filled, amount), p) == Get(filled, p)
    ensures limit.Keys <= filled.Keys ==> Allocated(limit, filled, amount) == filled
  {
    var r := Allocated(limit, filled, amount);
    forall p
      ensures Get(r, p) == Get(filled, p)
    {
      if p in limit {
        assert Shares(limit)[p] * 0.0 == 0.0;
      }
    }
    if limit.Keys <= filled.Keys {
      assert r.Keys == filled.Keys;
    }
  }

  /** Allocating 0.0 to a pot that is not over-full returns no excess and changes no filled value. */
  lemma AllocateZero(limit: Portfolios, filled: Portfolios)
    requires Sum(limit) - Sum(filled) >= 0.0
    ensures Excess(0.0, Sum(limit) - Sum(filled)) == 0.0
    ensures forall p :: Get(Allocated(limit, filled, 0.0), p) == Get(filled, p)
    ensures limit.Keys <= filled.Keys ==> Allocated(limit, filled, 0.0) == filled
  {
    AllocateNothing(limit, filled, 0.0);
  }

  /** Allocating a non-negative amount to an exactly full pot returns all of it as excess and changes nothing. */
  lemma AllocateToFullPot(limit: Portfolios, filled: Portfolios, amount: real)
    requires Sum(limit) - Sum(filled) == 0.0
    requires amount >= 0.0
    ensures Excess(amount, Sum(limit) - Sum(filled)) == amount
    ensures forall p :: Get(Allocated(limit, filled, amount), p) == Get(filled, p)
    ensures limit.Keys <= filled.Keys ==> Allocated(limit, filled, amount) == filled
  {
    AllocateNothing(limit, filled, amount);
  }

  /**
   * On an over-full pot the remaining capacity is negative and is still the
   * absorbed amount: a non-negative amount comes back with more than itself as
   * excess, and the total filled amount is pulled back down to the total limit.
   */
  lemma AllocateOverfull(limit: Portfolios, filled: Portfolios, amount: real)
    requires Sum(limit) - Sum(filled) < 0.0
    requires amount > Sum(limit) - Sum(filled)
    ensures Excess(amount, Sum(limit) - Sum(filled)) == amount - (Sum(limit) - Sum(filled))
    ensures Excess(amount, Sum(limit) - Sum(filled)) > amount
    ensures Sum(limit) != 0.0 ==> Sum(Allocated(limit, filled, amount)) == Sum(limit)
  {
    AllocatedTotal(limit, filled, amount);
  }

  // ---------------------------------------------------------------------------
  // The pot object
  // ---------------------------------------------------------------------------

  class DepositPot {
    /** The capacity of each portfolio; never changed. */
    const limit: Portfolios
    /** The amount filled so far in each portfolio; updated in place by allocation. */
    var filled: Portfolios

    constructor(limit: Portfolios, filled: Portfolios)
      ensures this.limit == limit && this.filled == filled
    {
      this.limit := limit;
      this.filled := filled;
    }

    /** The total capacity: the sum of the limits. */
    method TotalAllocationLimit() returns (t: real)
      ensures t == Sum(limit)
    {
      t := SumValues(limit);
    }

    /** The total filled amount: the sum of the filled values. */
    method TotalAllocationAmount() returns (t: real)
      ensures t == Sum(filled)
    {
      t := SumValues(filled);
    }

    /** The aggregate remaining capacity; not clamped, so negative for an over-full pot. */
    method RemainingAllocation() returns (r: real)
      ensures r == Sum(limit) - Sum(filled)
      ensures r < 0.0 <==> Sum(filled) > Sum(limit)
    {
      var total := SumValues(limit);
      var used := SumValues(filled);
      r := total - used;
    }

    /**
     * Each limit portfolio's share of the total limit (its capacity share,
     * independent of the fill level), or 0.0 everywhere when the limits sum to
     * zero; the shares then sum to 1 unless the limits sum to zero.
     */
    method AllocationRatio() returns (r: Portfolios)
      ensures r == Shares(limit)
      ensures r.Keys == limit.Keys
      ensures Sum(limit) != 0.0 ==> Sum(r) == 1.0
    {
      var total := SumValues(limit);
      r := SharesOf(limit, total);
      if total != 0.0 {
        SharesSumToOne(limit);
      }
    }

    /** The pot is full exactly when its remaining capacity is not positive. */
    method IsFull() returns (full: bool)
      ensures full <==> Sum(limit) - Sum(filled) <= 0.0
    {
      var remaining := RemainingAllocation();
      full := remaining <= 0.0;
    }

    /**
     * The allocation loop: for every limit portfolio, adds its ratio times
     * `absorbed` to its filled value in place (a missing ratio counts as 0.0).
     */
    method SpreadAbsorbed(ratios: Portfolios, absorbed: real)
      requires ratios.Keys == limit.Keys
      modifies this
      ensures filled == Spread(old(filled), ratios, absorbed)
    {
      ghost var delta := Scale(ratios, absorbed);
      var todo := limit.Keys;
      assert delta - todo == map[];
      assert Merge(filled, map[]) == filled;
      while todo != {}
        invariant todo <= limit.Keys
        invariant filled == Merge(old(filled), delta - todo)
        decreases todo
      {
        var p :| p in todo;
        assert delta[p] == Get(ratios, p) * absorbed;
        MergeStep(old(filled), delta, todo, p);
        filled := filled[p := Get(filled, p) + Get(ratios, p) * absorbed];
        todo := todo - {p};
      }
      assert delta - todo == delta;
    }

    /**
     * Allocates `amount`: clamps it to the remaining capacity, adds each limit
     * portfolio's capacity share of the absorbed part to its filled value, and
     * returns the part that did not fit.
     */
    method AllocateDeposit(amount: real) returns (excess: real)
      modifies this
      ensures excess == Excess(amount, Sum(limit) - Sum(old(filled)))
      ensures filled == Allocated(limit, old(filled), amount)
      ensures Sum(limit) != 0.0 ==>
        Sum(filled) == Sum(old(filled)) + Absorbed(amount, Sum(limit) - Sum(old(filled)))
    {
      var remaining := RemainingAllocation();
      var absorbed: real;
      if amount > remaining {
        excess := amount - remaining;
        absorbed := remaining;
      } else {
        excess := 0.0;
        absorbed := amount;
      }

      var ratios := AllocationRatio();
      ghost var before := filled;
      SpreadAbsorbed(ratios, absorbed);
      AllocatedTotal(limit, before, amount);
    }
  }

  // ---------------------------------------------------------------------------
  // Pots and plans divide the same way
  // ---------------------------------------------------------------------------

  /**
   * Opens an empty pot whose limits are a copy of the plan's weights and asks
   * both for their ratio: the pot's capacity ratio and the plan's weight ratio
   * are the same map, with exactly the plan's portfolios.
   */
  method CapacityRatioOfPlan(plan: DepositPlan) returns (capacityRatio: Portfolios, weightRatio: Portfolios)
    ensures capacityRatio == weightRatio
    ensures weightRatio == AllocationRatio(plan)
    ensures capacityRatio.Keys == plan.allocation.Keys
  {
    var pot := new DepositPot(plan.allocation, map[]);
    capacityRatio := pot.AllocationRatio();
    weightRatio := ComputeAllocationRatio(plan);
  }
}
