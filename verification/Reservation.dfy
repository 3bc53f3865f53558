/**
Reservation sizing: what is deducted before the provider is called, against what the calls a
route makes can cost.
*/
module Reservation {
  import opened Wrappers
  import opened Decimals
  import opened Pricing
  import opened Routing
  import Ledger
  import RouteExecution

  /** Tokens one adapter call used. */
  datatype CallUsage = CallUsage(prompt: nat, completion: nat)

  function AttemptsOf(policy: RetryPolicy, route: seq<Candidate>): nat {
    policy.maxAttempts * |route|
  }

  /** The amount Transaction 1 reserves. */
  function ReservedCost(p: ModelPricing, promptTokens: nat, maxTokens: nat, attempts: nat): Result<Dec, PricingError> {
    CalculateCost(p, promptTokens * attempts, maxTokens * attempts)
  }

  /** Each call stayed within the counted prompt and the requested completion. */
  predicate Within(calls: seq<CallUsage>, promptTokens: nat, maxTokens: nat) {
    forall i | 0 <= i < |calls| :: calls[i].prompt <= promptTokens && calls[i].completion <= maxTokens
  }

  function Prompts(calls: seq<CallUsage>): nat {
    if calls == [] then 0 else Prompts(calls[..|calls| - 1]) + calls[|calls| - 1].prompt
  }

  function Completions(calls: seq<CallUsage>): nat {
    if calls == [] then 0 else Completions(calls[..|calls| - 1]) + calls[|calls| - 1].completion
  }

  /** The exact, unrounded cost of all calls, in units of 10^-16 micro-dollars. */
  function UnitsOf(p: ModelPricing, calls: seq<CallUsage>): nat
    requires PricesExactly(p)
  {
    if calls == [] then 0
    else UnitsOf(p, calls[..|calls| - 1]) + ExactUnits(p, calls[|calls| - 1].prompt, calls[|calls| - 1].completion)
  }

  /** The same calls, each rounded up to a micro-dollar on its own. */
  function Billed(p: ModelPricing, calls: seq<CallUsage>): nat
    requires PricesExactly(p)
  {
    if calls == [] then 0
    else Billed(p, calls[..|calls| - 1]) + Cost(p, calls[|calls| - 1].prompt, calls[|calls| - 1].completion)
  }

  lemma {:induction false} UnitsOfTotals(p: ModelPricing, calls: seq<CallUsage>)
    requires PricesExactly(p)
    ensures UnitsOf(p, calls) == ExactUnits(p, Prompts(calls), Completions(calls))
  {
    if calls != [] {
      var pre, last := calls[..|calls| - 1], calls[|calls| - 1];
      UnitsOfTotals(p, pre);
      ExactUnitsAdd(p, Prompts(pre), Completions(pre), last.prompt, last.completion);
    }
  }

  /** Rounding call by call costs at least the rounded total, and at most calls - 1 micro-dollars more. */
  lemma {:induction false} BilledIsNearTotal(p: ModelPricing, calls: seq<CallUsage>)
    requires PricesExactly(p)
    ensures Cost(p, Prompts(calls), Completions(calls)) <= Billed(p, calls)
    ensures calls != [] ==> Billed(p, calls) <= Cost(p, Prompts(calls), Completions(calls)) + |calls| - 1
  {
    if calls == [] {
      CeilDivIs(0, SCALE, 0);
    } else {
      var pre, last := calls[..|calls| - 1], calls[|calls| - 1];
      BilledIsNearTotal(p, pre);
      CostSplits(p, Prompts(pre), Completions(pre), last.prompt, last.completion);
      if pre == [] {
        CeilDivIs(0, SCALE, 0);
      }
    }
  }

  lemma {:induction false} TotalsWithin(calls: seq<CallUsage>, promptTokens: nat, maxTokens: nat, attempts: nat)
    requires Within(calls, promptTokens, maxTokens) && |calls| <= attempts
    ensures Prompts(calls) <= promptTokens * attempts
    ensures Completions(calls) <= maxTokens * attempts
  {
    if calls != [] {
      TotalsWithin(calls[..|calls| - 1], promptTokens, maxTokens, attempts - 1);
      Distribute(promptTokens, attempts - 1, 1);
      Distribute(maxTokens, attempts - 1, 1);
    }
  }

  /** What execute_route did: any number of adapter calls its outcome allows. */
  ghost predicate Executed(policy: RetryPolicy, route: seq<Candidate>, world: World, tried: seq<nat>, calls: seq<CallUsage>) {
    && ValidPolicy(policy) && route != [] && |tried| <= |route|
    && (exists r :: RouteExecution.OutcomeIs(policy, route, world, tried, r))
    && |calls| == Calls(tried)
  }

  lemma CallsFitReservation(policy: RetryPolicy, route: seq<Candidate>, world: World, tried: seq<nat>, calls: seq<CallUsage>)
    requires Executed(policy, route, world, tried, calls)
    ensures |calls| <= AttemptsOf(policy, route)
  {
    var r :| RouteExecution.OutcomeIs(policy, route, world, tried, r);
    forall i | 0 <= i < |tried|
      ensures tried[i] <= policy.maxAttempts
    {
      if i < |tried| - 1 && (r.RouteSuccess? || r.Propagated?) {
        assert tried[i] == tried[..|tried| - 1][i];
      }
    }
    CallsAreBounded(policy, tried);
    MultiplyMonotone(|tried|, |route|, policy.maxAttempts);
  }

  /**
  Sufficiency: whatever execute_route does with candidates at one price, however it ends, the
  reservation covers the exact cost of every call it made, and calls rounded one by one exceed it
  by at most attempts - 1 micro-dollars.
  */
  lemma ReservationCoversRoute(p: ModelPricing, policy: RetryPolicy, route: seq<Candidate>, world: World, tried: seq<nat>,
                               calls: seq<CallUsage>, promptTokens: nat, maxTokens: nat)
    requires PricesExactly(p) && Executed(policy, route, world, tried, calls) && Within(calls, promptTokens, maxTokens)
    requires ReservedCost(p, promptTokens, maxTokens, AttemptsOf(policy, route)).Ok?
    ensures var reserved := ReservedCost(p, promptTokens, maxTokens, AttemptsOf(policy, route)).value;
            && UnitsOf(p, calls) <= reserved.coeff * SCALE
            && Billed(p, calls) <= reserved.coeff + AttemptsOf(policy, route) - 1
  {
    var attempts := AttemptsOf(policy, route);
    CallsFitReservation(policy, route, world, tried, calls);
    AtLeastOneAttempt(policy, route);
    TotalsWithin(calls, promptTokens, maxTokens, attempts);
    CallsCostAtMost(p, calls, promptTokens * attempts, maxTokens * attempts);
    PricedIsCost(p, promptTokens * attempts, maxTokens * attempts);
  }

  lemma PricedIsCost(p: ModelPricing, i: nat, o: nat)
    requires PricesExactly(p) && CalculateCost(p, i, o).Ok?
    ensures CalculateCost(p, i, o).value.coeff == Cost(p, i, o)
  {
    CostIsExactCeiling(p, i, o);
  }

  lemma CallsCostAtMost(p: ModelPricing, calls: seq<CallUsage>, i: nat, o: nat)
    requires PricesExactly(p) && Prompts(calls) <= i && Completions(calls) <= o
    ensures UnitsOf(p, calls) <= Cost(p, i, o) * SCALE
    ensures Billed(p, calls) <= Cost(p, i, o) + if calls == [] then 0 else |calls| - 1
  {
    UnitsOfTotals(p, calls);
    BilledIsNearTotal(p, calls);
    CostIsMonotone(p, Prompts(calls), Completions(calls), i, o);
  }

  lemma AtLeastOneAttempt(policy: RetryPolicy, route: seq<Candidate>)
    requires ValidPolicy(policy) && route != []
    ensures AttemptsOf(policy, route) >= 1
  {
    MultiplyMonotone(1, policy.maxAttempts, |route|);
  }

  /** A successful call within its bounds is priced, never above the reservation, so never capped. */
  lemma SuccessIsNeverCapped(p: ModelPricing, policy: RetryPolicy, route: seq<Candidate>, used: CallUsage,
                             promptTokens: nat, maxTokens: nat)
    requires PricesExactly(p) && ValidPolicy(policy) && route != [] && Within([used], promptTokens, maxTokens)
    requires ReservedCost(p, promptTokens, maxTokens, AttemptsOf(policy, route)).Ok?
    ensures var reserved := ReservedCost(p, promptTokens, maxTokens, AttemptsOf(policy, route)).value;
            var actual := CalculateCost(p, used.prompt, used.completion);
            && actual.Ok? && actual.value.coeff <= reserved.coeff
            && reserved.coeff - Ledger.RefundDue(reserved.coeff, actual.value.coeff) == actual.value.coeff
  {
    var attempts := AttemptsOf(policy, route);
    AtLeastOneAttempt(policy, route);
    assert Prompts([used]) == used.prompt && Completions([used]) == used.completion by {
      assert [used][..0] == [];
    }
    TotalsWithin([used], promptTokens, maxTokens, attempts);
    CostIsMonotone(p, used.prompt, used.completion, promptTokens * attempts, maxTokens * attempts);
    CostIsExactCeiling(p, used.prompt, used.completion);
    CostIsExactCeiling(p, promptTokens * attempts, maxTokens * attempts);
  }

  lemma {:induction false} UnitsOfCopies(p: ModelPricing, i: nat, o: nat, n: nat)
    requires PricesExactly(p)
    ensures ExactUnits(p, i * n, o * n) == n * ExactUnits(p, i, o)
  {
    if n > 0 {
      UnitsOfCopies(p, i, o, n - 1);
      Distribute(i, n - 1, 1);
      Distribute(o, n - 1, 1);
      ExactUnitsAdd(p, i * (n - 1), o * (n - 1), i, o);
      OneMoreTime(n - 1, ExactUnits(p, i, o));
    }
  }

  /** A ceiling reaches x exactly when the quotient is above x - 1. */
  lemma CeilDivReaches(m: nat, d: nat, x: nat)
    requires d > 0
    ensures x <= CeilDiv(m, d) <==> d * x < m + d
  {
    var c: int := CeilDiv(m, d);
    Distribute(d, c, -1);
    if x <= c {
      MultiplyMonotone(x, c, d);
    } else {
      MultiplyMonotone(c + 1, x, d);
      Distribute(d, c, 1);
    }
  }

  lemma Excess(n: nat, cost: nat, units: nat, d: nat)
    requires units <= cost * d
    ensures n * (cost * d - units) == d * (n * cost) - n * units
  {
    Distribute(n, cost * d, 0 - units);
    assert n * (cost * d) == d * (n * cost);
  }

  /**
  Exactly when separate rounding fits: n equal calls rounded one by one stay within what is reserved
  for them if and only if their rounding excesses together are less than one micro-dollar.
  */
  lemma RoundingFits(p: ModelPricing, i: nat, o: nat, n: nat)
    requires PricesExactly(p)
    ensures n * Cost(p, i, o) <= Cost(p, i * n, o * n) <==> n * (Cost(p, i, o) * SCALE - ExactUnits(p, i, o)) < SCALE
  {
    var cost, units := Cost(p, i, o), ExactUnits(p, i, o);
    UnitsOfCopies(p, i, o, n);
    CeilDivReaches(n * units, SCALE, n * cost);
    Excess(n, cost, units, SCALE);
  }

  /** The bound is reached: three one-token calls of gpt-5-mini round to 9 micro-dollars against 7 reserved. */
  lemma RoundingCanExceedReservation()
    ensures var calls := seq(3, _ => CallUsage(1, 1));
            ReservedCost(CATALOG[2], 1, 1, 3) == Ok(Dec(7, -6)) && Billed(CATALOG[2], calls) == 9
  {
    var p := CATALOG[2];
    var one := CallUsage(1, 1);
    assert Pow10(14) == 100_000_000_000_000;
    assert Pow10(16) == 10_000_000_000_000_000;
    CeilDivIs(ExactUnits(p, 1, 1), SCALE, 3);
    CeilDivIs(ExactUnits(p, 3, 3), SCALE, 7);
    CostIsExactCeiling(p, 3, 3);
    assert Billed(p, [one]) == 3 by {
      assert [one][..0] == [];
    }
    assert Billed(p, [one, one]) == 6 by {
      assert [one, one][..1] == [one];
    }
    assert seq(3, _ => one) == [one, one, one];
    assert [one, one, one][..2] == [one, one];
  }
}
