/**
 * The deposit use case: pools a list of deposits and allocates the pool over
 * a list of deposit plans. One-time plans are funded before monthly plans;
 * each plan is filled through a fresh pot whose limits are the plan's weights,
 * until the pool runs out; a positive leftover is spread with the weight ratio
 * of the last plan in priority order.
 */
module MakeDeposit {
  import opened Amounts
  import opened DepositPlans
  import opened DepositPots

  /** A deposit, reduced to its amount (identifier, reference code and time are not used). */
  datatype Deposit = Deposit(amount: real)

  /** Every deposit amount is non-negative. */
  predicate NonNegativeDeposits(deposits: seq<Deposit>)
  {
    forall i | 0 <= i < |deposits| :: deposits[i].amount >= 0.0
  }

  /** The pool: the sum of all deposit amounts, added up from the first; non-negative when every amount is. */
  function DepositTotal(deposits: seq<Deposit>): (t: real)
    ensures NonNegativeDeposits(deposits) ==> t >= 0.0
  {
    if deposits == [] then 0.0
    else DepositTotal(deposits[..|deposits| - 1]) + deposits[|deposits| - 1].amount
  }

  // ---------------------------------------------------------------------------
  // Priority order: one-time plans first, each type in its original order
  // ---------------------------------------------------------------------------

  /** The plans of type `t`, in their original order. */
  function OfType(plans: seq<DepositPlan>, t: PlanType): seq<DepositPlan>
  {
    if plans == [] then []
    else
      var last := plans[|plans| - 1];
      OfType(plans[..|plans| - 1], t) + (if last.planType == t then [last] else [])
  }

  lemma {:induction false} OfTypeAppend(a: seq<DepositPlan>, b: seq<DepositPlan>, t: PlanType)
    ensures OfType(a + b, t) == OfType(a, t) + OfType(b, t)
    decreases |b|
  {
    if b == [] {
      assert a + b == a;
    } else {
      var b' := b[..|b| - 1];
      assert (a + b)[..|a + b| - 1] == a + b';
      OfTypeAppend(a, b', t);
    }
  }

  lemma OfTypeSnoc(init: seq<DepositPlan>, last: DepositPlan, t: PlanType)
    ensures OfType(init + [last], t) == OfType(init, t) + (if last.planType == t then [last] else [])
  {
    assert (init + [last])[..|init|] == init;
  }

  lemma OfTypePrefix(plans: seq<DepositPlan>, i: nat, t: PlanType)
    requires i <= |plans|
    ensures |OfType(plans[..i], t)| <= |OfType(plans, t)|
  {
    OfTypeAppend(plans[..i], plans[i..], t);
    assert plans[..i] + plans[i..] == plans;
  }

  /** Every plan is one-time or monthly, so the two selections together are a permutation of the plans. */
  lemma {:induction false} OfTypePartition(plans: seq<DepositPlan>)
    ensures multiset(OfType(plans, OneTime)) + multiset(OfType(plans, Monthly)) == multiset(plans)
  {
    if plans != [] {
      var init := plans[..|plans| - 1];
      var last := plans[|plans| - 1];
      assert plans == init + [last];
      OfTypePartition(init);
      OfTypeSnoc(init, last, OneTime);
      OfTypeSnoc(init, last, Monthly);
      var ones := OfType(init, OneTime);
      var months := OfType(init, Monthly);
      if last.planType == OneTime {
        assert multiset(ones + [last]) == multiset(ones) + multiset{last};
        assert months + [] == months;
      } else {
        assert multiset(months + [last]) == multiset(months) + multiset{last};
        assert ones + [] == ones;
      }
    }
  }

  lemma {:induction false} OfTypeHasType(plans: seq<DepositPlan>, t: PlanType)
    ensures forall i | 0 <= i < |OfType(plans, t)| :: OfType(plans, t)[i].planType == t
  {
    if plans != [] {
      OfTypeHasType(plans[..|plans| - 1], t);
    }
  }

  lemma {:induction false} OfTypeOfOther(plans: seq<DepositPlan>, t: PlanType, u: PlanType)
    requires t != u
    ensures OfType(OfType(plans, t), u) == []
  {
    if plans != [] {
      var init := plans[..|plans| - 1];
      OfTypeOfOther(init, t, u);
      var last := plans[|plans| - 1];
      OfTypeAppend(OfType(init, t), if last.planType == t then [last] else [], u);
      if last.planType == t {
        assert [last][..0] == [];
      }
    }
  }

  lemma {:induction false} OfTypeIdempotent(plans: seq<DepositPlan>, t: PlanType)
    ensures OfType(OfType(plans, t), t) == OfType(plans, t)
  {
    if plans != [] {
      var init := plans[..|plans| - 1];
      OfTypeIdempotent(init, t);
      var last := plans[|plans| - 1];
      OfTypeAppend(OfType(init, t), if last.planType == t then [last] else [], t);
      if last.planType == t {
        assert [last][..0] == [];
      }
    }
  }

  /** The plans in priority order: the stable sort whose key puts one-time before monthly. */
  function Prioritize(plans: seq<DepositPlan>): (sorted: seq<DepositPlan>)
    ensures multiset(sorted) == multiset(plans)
    ensures |sorted| == |plans|
  {
    OfTypePartition(plans);
    assert |multiset(plans)| == |plans|;
    OfType(plans, OneTime) + OfType(plans, Monthly)
  }

  /**
   * Sorting is stable and by type: every one-time plan comes before every
   * monthly plan, and the plans of each type keep their relative order.
   */
  lemma PrioritizeOrderedAndStable(plans: seq<DepositPlan>)
    ensures forall i, j | 0 <= i < j < |Prioritize(plans)| ::
      !(Prioritize(plans)[i].planType == Monthly && Prioritize(plans)[j].planType == OneTime)
    ensures OfType(Prioritize(plans), OneTime) == OfType(plans, OneTime)
    ensures OfType(Prioritize(plans), Monthly) == OfType(plans, Monthly)
  {
    var ones := OfType(plans, OneTime);
    var months := OfType(plans, Monthly);
    OfTypeHasType(plans, OneTime);
    OfTypeHasType(plans, Monthly);
    OfTypeAppend(ones, months, OneTime);
    OfTypeAppend(ones, months, Monthly);
    OfTypeIdempotent(plans, OneTime);
    OfTypeIdempotent(plans, Monthly);
    OfTypeOfOther(plans, OneTime, Monthly);
    OfTypeOfOther(plans, Monthly, OneTime);
  }

  /**
   * The lowest-priority plan, whose weight ratio spreads the leftover: the
   * last monthly plan, or the last one-time plan when there is no monthly plan.
   */
  lemma LastPrioritized(plans: seq<DepositPlan>)
    requires plans != []
    ensures OfType(plans, Monthly) != [] ==>
      Prioritize(plans)[|plans| - 1] == OfType(plans, Monthly)[|OfType(plans, Monthly)| - 1]
    ensures OfType(plans, Monthly) == [] ==>
      Prioritize(plans)[|plans| - 1] == OfType(plans, OneTime)[|OfType(plans, OneTime)| - 1]
  {
  }

  /** Sorts `plans` in place into priority order. */
  method SortByPriority(plans: array<DepositPlan>)
    modifies plans
    ensures plans[..] == Prioritize(old(plans[..]))
  {
    var original := plans[..];
    var k := 0;
    for i := 0 to plans.Length
      invariant k == |OfType(original[..i], OneTime)| <= i
      invariant plans[..k] == OfType(original[..i], OneTime)
    {
      assert original[..i + 1] == original[..i] + [original[i]];
      OfTypeSnoc(original[..i], original[i], OneTime);
      if original[i].planType == OneTime {
        plans[k] := original[i];
        k := k + 1;
      }
    }
    assert original[..plans.Length] == original;
    CopyMonthly(plans, original, k);
  }

  /** The second pass of the sort: writes the monthly plans of `original`, in order, after the `k` one-time plans. */
  method CopyMonthly(plans: array<DepositPlan>, original: seq<DepositPlan>, k0: nat)
    requires |original| == plans.Length
    requires k0 == |OfType(original, OneTime)| <= plans.Length
    requires plans[..k0] == OfType(original, OneTime)
    modifies plans
    ensures plans[..] == Prioritize(original)
  {
    ghost var ones := OfType(original, OneTime);
    assert |ones| + |OfType(original, Monthly)| == plans.Length by {
      assert |Prioritize(original)| == |original|;
    }
    var k := k0;
    for i := 0 to plans.Length
      invariant k == |ones| + |OfType(original[..i], Monthly)| <= plans.Length
      invariant plans[..k] == ones + OfType(original[..i], Monthly)
    {
      assert original[..i + 1] == original[..i] + [original[i]];
      OfTypeSnoc(original[..i], original[i], Monthly);
      OfTypePrefix(original, i + 1, Monthly);
      if original[i].planType == Monthly {
        plans[k] := original[i];
        k := k + 1;
      }
    }
    assert original[..plans.Length] == original;
    assert plans[..] == plans[..k];
  }

  // ---------------------------------------------------------------------------
  // Specification of the allocation
  // ---------------------------------------------------------------------------

  /** The running result and the part of the pool not yet allocated. */
  datatype Progress = Progress(result: Portfolios, remaining: real)

  /** What a fresh pot whose limits are `weights` holds after `amount` is allocated to it. */
  ghost function PotFill(weights: Portfolios, amount: real): Portfolios
  {
    Allocated(weights, map[], amount)
  }

  /** A pot fill: what a fresh pot with the given limits holds after an amount is allocated to it. */
  type Fill = (Portfolios, real) -> Portfolios

  /**
   * Funds `plans` in order from `remaining`, adding each pot's fill to `acc`;
   * stops after the first plan that leaves nothing (or less than nothing) of
   * the pool. The pot fill is a parameter, so that facts about the walk need
   * not look inside it.
   */
  ghost function Walk(plans: seq<DepositPlan>, acc: Portfolios, remaining: real, fill: Fill): Progress
    decreases |plans|
  {
    if plans == [] then Progress(acc, remaining)
    else
      var f := fill(plans[0].allocation, remaining);
      var next := Progress(Merge(acc, f), remaining - Sum(f));
      if next.remaining <= 0.0 then next else Walk(plans[1..], next.result, next.remaining, fill)
  }

  /**
   * One step of the walk: with `next` the progress after the first plan's
   * fill, the walk stops there when the pool is used up and otherwise goes on
   * from `next` with the remaining plans.
   */
  lemma WalkStep(plans: seq<DepositPlan>, acc: Portfolios, remaining: real, fill: Fill, f: Portfolios, next: Progress)
    requires plans != [] && f == fill(plans[0].allocation, remaining)
    requires next == Progress(Merge(acc, f), remaining - Sum(f))
    ensures Walk(plans, acc, remaining, fill) ==
      if next.remaining <= 0.0 then next else Walk(plans[1..], next.result, next.remaining, fill)
  {
    var m := Merge(acc, f);
    var r := remaining - Sum(f);
    assert Walk(plans, acc, remaining, fill) == if r <= 0.0 then Progress(m, r) else Walk(plans[1..], m, r, fill);
  }

  /**
   * The walk from plan `i` on, one step taken: with `next` the progress after
   * that plan's fill, the walk stops there when the pool is used up and
   * otherwise goes on from `next` with plan `i + 1`.
   */
  lemma WalkFrom(plans: seq<DepositPlan>, i: nat, acc: Portfolios, remaining: real, fill: Fill, f: Portfolios, next: Progress)
    requires i < |plans| && f == fill(plans[i].allocation, remaining)
    requires next == Progress(Merge(acc, f), remaining - Sum(f))
    ensures Walk(plans[i..], acc, remaining, fill) ==
      if next.remaining <= 0.0 then next else Walk(plans[i + 1..], next.result, next.remaining, fill)
  {
    WalkStep(plans[i..], acc, remaining, fill, f, next);
    assert plans[i..][1..] == plans[i + 1..];
  }

  /** The allocation of the pooled deposits over the plans. */
  ghost function Allocation(plans: seq<DepositPlan>, deposits: seq<Deposit>): Portfolios
  {
    if plans == [] || deposits == [] then map[]
    else
      var sorted := Prioritize(plans);
      var walked := Walk(sorted, map[], DepositTotal(deposits), PotFill);
      if walked.remaining > 0.0 then
        Spread(walked.result, AllocationRatio(sorted[|sorted| - 1]), walked.remaining)
      else walked.result
  }

  // ---------------------------------------------------------------------------
  // The use case
  // ---------------------------------------------------------------------------

  /** Adds each portfolio's ratio times `amount` to the running result. */
  method AddRemainingAllocation(acc: Portfolios, ratio: Portfolios, amount: real) returns (r: Portfolios)
    ensures r == Spread(acc, ratio, amount)
    ensures Sum(r) == Sum(acc) + Sum(ratio) * amount
  {
    r := acc;
    ghost var delta := Scale(ratio, amount);
    var todo := ratio.Keys;
    assert delta - todo == map[];
    assert Merge(acc, map[]) == acc;
    while todo != {}
      invariant todo <= ratio.Keys
      invariant r == Merge(acc, delta - todo)
      decreases todo
    {
      var p :| p in todo;
      assert delta[p] == ratio[p] * amount;
      MergeStep(acc, delta, todo, p);
      r := r[p := Get(r, p) + ratio[p] * amount];
      todo := todo - {p};
    }
    assert delta - todo == delta;
    SpreadTotal(acc, ratio, amount);
  }

  /**
   * Opens a fresh pot with the plan's weights as limits, allocates
   * `remaining` to it and returns what it holds and its total. `fill` stands
   * for PotFill, unfolded only where a PotFill term appears.
   */
  method FillPot(plan: DepositPlan, remaining: real, ghost fill: Fill) returns (filled: Portfolios, total: real)
    requires forall w, a {:trigger PotFill(w, a)} :: fill(w, a) == PotFill(w, a)
    ensures filled == fill(plan.allocation, remaining)
    ensures total == Sum(filled)
  {
    var pot := new DepositPot(plan.allocation, map[]);
    var _ := pot.AllocateDeposit(remaining);
    total := pot.TotalAllocationAmount();
    filled := pot.filled;
    assert filled == PotFill(plan.allocation, remaining);
  }

  /**
   * The allocation loop: funds the plans in order from the pooled `total`,
   * one fresh pot per plan, adding each pot's fill to the result and taking
   * its total off the pool, and stops after the first plan that exhausts the
   * pool. Returns the result and what is left of the pool.
   */
  method FundPlans(plans: array<DepositPlan>, total: real, ghost fill: Fill) returns (result: Portfolios, remaining: real)
    requires forall w, a {:trigger PotFill(w, a)} :: fill(w, a) == PotFill(w, a)
    ensures Progress(result, remaining) == Walk(plans[..], map[], total, fill)
  {
    ghost var ps := plans[..];
    ghost var goal := Walk(ps, map[], total, fill);
    remaining := total;
    result := map[];
    var i := 0;
    while i < plans.Length
      invariant 0 <= i <= plans.Length
      invariant goal == Walk(ps[i..], result, remaining, fill)
      decreases plans.Length - i
    {
      var filled, potTotal := FillPot(plans[i], remaining, fill);
      ghost var acc, left := result, remaining;
      remaining := remaining - potTotal;
      result := MergeInto(result, filled);
      assert plans[i] == ps[i];
      WalkFrom(ps, i, acc, left, fill, filled, Progress(result, remaining));
      if remaining <= 0.0 {
        return;
      }
      i := i + 1;
    }
  }

  /**
   * Allocates the pooled deposits over the plans and returns the amount per
   * portfolio; sorts `plans` into priority order in place unless either list
   * is empty.
   */
  method Execute(plans: array<DepositPlan>, deposits: seq<Deposit>) returns (result: Portfolios)
    modifies plans
    ensures plans.Length == 0 || deposits == [] ==> result == map[] && plans[..] == old(plans[..])
    ensures plans.Length != 0 && deposits != [] ==> plans[..] == Prioritize(old(plans[..]))
    ensures result == Allocation(old(plans[..]), deposits)
  {
    if plans.Length == 0 || deposits == [] {
      return map[];
    }
    var total := DepositTotal(deposits);
    SortByPriority(plans);
    ghost var sorted := plans[..];

    var remaining;
    result, remaining := FundPlans(plans, total, PotFill);

    if remaining > 0.0 {
      var ratio := ComputeAllocationRatio(plans[plans.Length - 1]);
      result := AddRemainingAllocation(result, ratio, remaining);
    }
  }
}
