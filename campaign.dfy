/**
 * The budget model of one advertising campaign: a list of ad budgets, an agency fee
 * rate charged on the whole ad spend, a third-party tool fee rate charged on ads 1, 2
 * and 4 only, and a fixed agency cost.
 */
module Campaigns {
  import opened Outcomes

  /** Sum of the budgets, accumulated left to right as the source's loop does. */
  function Sum(s: seq<real>): real
  {
    if s == [] then 0.0 else Sum(s[..|s| - 1]) + s[|s| - 1]
  }

  /** Some budget is negative: part of the constructor's first check. */
  predicate HasNegative(s: seq<real>)
  {
    exists i :: 0 <= i < |s| && s[i] < 0.0
  }

  predicate BudgetsValid(budgets: seq<real>)
  {
    |budgets| > 0 && forall i :: 0 <= i < |budgets| ==> budgets[i] >= 0.0
  }

  predicate RateValid(rate: real)
  {
    0.0 <= rate <= 1.0
  }

  /** What a constructed campaign is known to satisfy. */
  predicate WellFormed(budgets: seq<real>, agencyFee: real, toolFee: real, fixedCosts: real)
  {
    BudgetsValid(budgets) && RateValid(agencyFee) && RateValid(toolFee) && fixedCosts >= 0.0
  }

  /**
   * The Campaign constructor's checks, in the order the source makes them; the first
   * one that fails is the one reported.
   */
  function CheckInputs(budgets: seq<real>, agencyFee: real, toolFee: real, fixedCosts: real): (r: Option<InputError>)
    ensures r == None <==> WellFormed(budgets, agencyFee, toolFee, fixedCosts)
    ensures r == Some(BadBudgets) <==> !BudgetsValid(budgets)
    ensures r == Some(AgencyFeeOutOfRange) <==> BudgetsValid(budgets) && !RateValid(agencyFee)
    ensures r == Some(ToolFeeOutOfRange) <==> BudgetsValid(budgets) && RateValid(agencyFee) && !RateValid(toolFee)
    ensures r == Some(NegativeFixedCost) <==>
      BudgetsValid(budgets) && RateValid(agencyFee) && RateValid(toolFee) && fixedCosts < 0.0
  {
    if |budgets| == 0 || HasNegative(budgets) then Some(BadBudgets)
    else if agencyFee < 0.0 || agencyFee > 1.0 then Some(AgencyFeeOutOfRange)
    else if toolFee < 0.0 || toolFee > 1.0 then Some(ToolFeeOutOfRange)
    else if fixedCosts < 0.0 then Some(NegativeFixedCost)
    else None
  }

  /** Total campaign budget Z = X + X*Y1 + (X1 + X2 + X4)*Y2 + fixed costs, X the sum of all budgets. */
  function TotalBudget(budgets: seq<real>, agencyFee: real, toolFee: real, fixedCosts: real): real
    requires |budgets| >= 4
  {
    Sum(budgets) + Sum(budgets) * agencyFee + (budgets[0] + budgets[1] + budgets[3]) * toolFee + fixedCosts
  }

  lemma {:induction false} SumNonNegative(s: seq<real>)
    requires forall i :: 0 <= i < |s| ==> s[i] >= 0.0
    ensures Sum(s) >= 0.0
  {
    if s != [] {
      SumNonNegative(s[..|s| - 1]);
    }
  }

  /** Replacing one budget changes the sum by exactly the difference. */
  lemma {:induction false} SumUpdate(s: seq<real>, i: nat, v: real)
    requires i < |s|
    ensures Sum(s[i := v]) == Sum(s) - s[i] + v
  {
    var n := |s| - 1;
    assert s[i := v][..n] == if i == n then s[..n] else s[..n][i := v];
    if i < n {
      SumUpdate(s[..n], i, v);
    }
  }

  /**
   * Changing the budget at index i by d changes the total by d*(1 + Y1) when i is 2 or
   * at least 4 (those ads carry no tool fee), and by d*(1 + Y1 + Y2) when i is 0, 1 or 3.
   */
  lemma ChangeOneBudget(budgets: seq<real>, agencyFee: real, toolFee: real, fixedCosts: real, i: nat, v: real)
    requires |budgets| >= 4 && i < |budgets|
    ensures TotalBudget(budgets[i := v], agencyFee, toolFee, fixedCosts) ==
      TotalBudget(budgets, agencyFee, toolFee, fixedCosts) +
      (v - budgets[i]) * (1.0 + agencyFee + (if i == 0 || i == 1 || i == 3 then toolFee else 0.0))
  {
    SumUpdate(budgets, i, v);
    var d := v - budgets[i];
    var s := Sum(budgets);
    assert Sum(budgets[i := v]) == s + d;
    assert (s + d) * agencyFee == s * agencyFee + d * agencyFee;
    if i == 0 || i == 1 || i == 3 {
      var t := budgets[0] + budgets[1] + budgets[3];
      var b := budgets[i := v];
      assert b[0] + b[1] + b[3] == t + d;
      assert (t + d) * toolFee == t * toolFee + d * toolFee;
    }
  }

  /** On valid inputs the total is at least the ad spend plus the fixed costs. */
  lemma TotalBudgetLowerBound(budgets: seq<real>, agencyFee: real, toolFee: real, fixedCosts: real)
    requires |budgets| >= 4 && WellFormed(budgets, agencyFee, toolFee, fixedCosts)
    ensures 0.0 <= Sum(budgets)
    ensures Sum(budgets) + fixedCosts <= TotalBudget(budgets, agencyFee, toolFee, fixedCosts)
  {
    SumNonNegative(budgets);
    assert budgets[0] >= 0.0 && budgets[1] >= 0.0 && budgets[3] >= 0.0;
    RateScalesDown(Sum(budgets), agencyFee);
    RateScalesDown(budgets[0] + budgets[1] + budgets[3], toolFee);
  }

  /** The sum of a four-budget campaign, written out. */
  lemma Sum4(a: real, b: real, c: real, d: real)
    ensures Sum([a, b, c, d]) == a + b + c + d
  {
    assert [a, b, c, d][..3] == [a, b, c];
    assert [a, b, c][..2] == [a, b];
    assert [a, b][..1] == [a];
    assert [a][..0] == [];
    assert Sum([a]) == a;
    assert Sum([a, b]) == a + b;
    assert Sum([a, b, c]) == a + b + c;
  }

  /** A rate in [0, 1] scales a non-negative amount to somewhere between zero and itself. */
  lemma RateScalesDown(x: real, rate: real)
    requires 0.0 <= x && RateValid(rate)
    ensures 0.0 <= x * rate <= x
  {
    assert x - x * rate == x * (1.0 - rate);
    assert 0.0 <= x * (1.0 - rate);
  }

  class Campaign {
    const adBudgets: array<real>
    const agencyFeePercentage: real
    const thirdPartyToolFeesPercentage: real
    const fixedAgencyCosts: real
    var totalAdSpend: real

    /** The inputs passed the constructor's checks and the cached spend is their sum. */
    ghost predicate Valid()
      reads this, adBudgets
    {
      WellFormed(adBudgets[..], agencyFeePercentage, thirdPartyToolFeesPercentage, fixedAgencyCosts) &&
      totalAdSpend == Sum(adBudgets[..])
    }

    /**
     * The source's constructor: validates eagerly, then builds the campaign. A null
     * array is rejected like an empty one.
     */
    static method Create(budgets: array?<real>, agencyFee: real, toolFee: real, fixedCosts: real)
      returns (r: Result<Campaign>)
      ensures r.Err? <==> budgets == null || CheckInputs(budgets[..], agencyFee, toolFee, fixedCosts).Some?
      ensures r.Err? ==>
        r.error == InvalidInput(if budgets == null then BadBudgets
                                else CheckInputs(budgets[..], agencyFee, toolFee, fixedCosts).value)
      ensures r.Ok? ==>
        fresh(r.value) && r.value.Valid() && r.value.adBudgets == budgets &&
        r.value.agencyFeePercentage == agencyFee && r.value.thirdPartyToolFeesPercentage == toolFee &&
        r.value.fixedAgencyCosts == fixedCosts
    {
      if budgets == null {
        return Err(InvalidInput(BadBudgets));
      }
      var check := CheckInputs(budgets[..], agencyFee, toolFee, fixedCosts);
      if check.Some? {
        return Err(InvalidInput(check.value));
      }
      var c := new Campaign(budgets, agencyFee, toolFee, fixedCosts);
      return Ok(c);
    }

    /** Stores the (already validated) inputs and caches the total ad spend. */
    constructor (budgets: array<real>, agencyFee: real, toolFee: real, fixedCosts: real)
      requires WellFormed(budgets[..], agencyFee, toolFee, fixedCosts)
      ensures Valid()
      ensures adBudgets == budgets && agencyFeePercentage == agencyFee &&
        thirdPartyToolFeesPercentage == toolFee && fixedAgencyCosts == fixedCosts
    {
      adBudgets := budgets;
      agencyFeePercentage := agencyFee;
      thirdPartyToolFeesPercentage := toolFee;
      fixedAgencyCosts := fixedCosts;
      new;
      var total := CalculateTotalAdBudget();
    }

    /** Sums every budget into totalAdSpend (the ad spend X). */
    method CalculateTotalAdBudget() returns (total: real)
      modifies this
      ensures total == Sum(adBudgets[..]) && totalAdSpend == total
    {
      total := 0.0;
      for i := 0 to adBudgets.Length
        invariant total == Sum(adBudgets[..i])
      {
        assert adBudgets[..i + 1][..i] == adBudgets[..i];
        total := total + adBudgets[i];
      }
      assert adBudgets[..adBudgets.Length] == adBudgets[..];
      totalAdSpend := total;
    }

    /** The cached spend of a valid campaign is non-negative and at least any single fee it is charged. */
    lemma SpendNonNegative()
      requires Valid()
      ensures 0.0 <= totalAdSpend
      ensures 0.0 <= totalAdSpend * agencyFeePercentage <= totalAdSpend
    {
      SumNonNegative(adBudgets[..]);
      RateScalesDown(totalAdSpend, agencyFeePercentage);
    }

    /** Agency fee X*Y1: never negative and never more than the ad spend. */
    function CalculateAgencyFee(): (fee: real)
      reads this, adBudgets
      requires Valid()
      ensures 0.0 <= fee <= totalAdSpend
    {
      SpendNonNegative();
      totalAdSpend * agencyFeePercentage
    }

    /** Tool fees (X1 + X2 + X4)*Y2: between zero and the spend they are charged on. */
    function CalculateThirdPartyToolFees(x1: real, x2: real, x4: real): (fee: real)
      reads this, adBudgets
      requires Valid()
      ensures 0.0 <= x1 + x2 + x4 ==> 0.0 <= fee <= x1 + x2 + x4
    {
      var base := x1 + x2 + x4;
      if 0.0 <= base then
        RateScalesDown(base, thirdPartyToolFeesPercentage);
        base * thirdPartyToolFeesPercentage
      else
        base * thirdPartyToolFeesPercentage
    }

    /**
     * The total campaign budget Z. It reads index 3, so it needs four budgets, although
     * the constructor accepts any non-empty array.
     */
    function CalculateTotalBudget(): (z: real)
      reads this, adBudgets
      requires Valid() && adBudgets.Length >= 4
      ensures z == TotalBudget(adBudgets[..], agencyFeePercentage, thirdPartyToolFeesPercentage, fixedAgencyCosts)
      ensures z >= totalAdSpend + fixedAgencyCosts
    {
      assert adBudgets[0] >= 0.0 && adBudgets[1] >= 0.0 && adBudgets[3] >= 0.0;
      totalAdSpend + CalculateAgencyFee() +
      CalculateThirdPartyToolFees(adBudgets[0], adBudgets[1], adBudgets[3]) + fixedAgencyCosts
    }
  }
}
