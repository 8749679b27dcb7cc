/**
 * The repository's test cases, stated over exact real arithmetic.
 */
module Scenarios {
  import opened Outcomes
  import opened Campaigns
  import opened GoalSeeking

  /** Budgets [100, 200, 300, 400] and fixed cost 1000 under three fee settings. */
  lemma CampaignTotals()
    ensures TotalBudget([100.0, 200.0, 300.0, 400.0], 0.1, 0.05, 1000.0) == 2135.0
    ensures TotalBudget([100.0, 200.0, 300.0, 400.0], 0.0, 0.05, 1000.0) == 2035.0
    ensures TotalBudget([100.0, 200.0, 300.0, 400.0], 0.1, 0.0, 1000.0) == 2100.0
  {
    Sum4(100.0, 200.0, 300.0, 400.0);
  }

  /** The constructor test through the Campaign class: 2135 for rates (0.1, 0.05). */
  method TotalOfReferenceCampaign() returns (z: Result<real>)
    ensures z == Ok(2135.0)
  {
    var budgets := new real[] [100.0, 200.0, 300.0, 400.0];
    assert budgets[..] == [100.0, 200.0, 300.0, 400.0];
    CampaignTotals();
    var c := Campaign.Create(budgets, 0.1, 0.05, 1000.0);
    assert c.Ok?;
    var total := c.value.CalculateTotalBudget();
    return Ok(total);
  }

  /** The accepted construction of the Campaign tests: budgets [1000, 2000, 3000, 4000], rates (0.1, 0.2), fixed cost 500. */
  lemma AcceptedCampaign()
    ensures CheckInputs([1000.0, 2000.0, 3000.0, 4000.0], 0.1, 0.2, 500.0) == None
  {
  }

  /** The rejected constructions of the Campaign tests, with the check that rejects each. */
  lemma RejectedCampaigns()
    ensures CheckInputs([], 0.1, 0.2, 500.0) == Some(BadBudgets)
    ensures CheckInputs([1000.0, 2000.0, 300.0], -0.1, 0.2, 500.0) == Some(AgencyFeeOutOfRange)
    ensures CheckInputs([1000.0], 0.1, -0.2, 500.0) == Some(ToolFeeOutOfRange)
    ensures CheckInputs([1000.0], 0.1, 0.2, -500.0) == Some(NegativeFixedCost)
    ensures CheckInputs([-1000.0], 0.1, 0.2, 500.0) == Some(BadBudgets)
    ensures CheckInputs([-100.0, 200.0, 300.0, 400.0], 0.1, 0.05, 1000.0) == Some(BadBudgets)
    ensures CheckInputs([100.0, 200.0, 300.0, 400.0], -0.1, 0.05, 1000.0) == Some(AgencyFeeOutOfRange)
    ensures CheckInputs([100.0, 200.0, 300.0, 400.0], 0.1, -0.05, 1000.0) == Some(ToolFeeOutOfRange)
    ensures CheckInputs([100.0, 200.0, 300.0, 400.0], 0.1, 0.05, -1000.0) == Some(NegativeFixedCost)
  {
    assert [-1000.0][0] < 0.0;
    assert [-100.0, 200.0, 300.0, 400.0][0] < 0.0;
  }

  /** A null budget array is rejected like an empty one. */
  method NullBudgetsRejected() returns (r: Result<Campaign>)
    ensures r == Err(InvalidInput(BadBudgets))
  {
    r := Campaign.Create(null, 0.1, 0.05, 1000.0);
  }

  /** Known budgets [100, 200, 400], fixed cost 1000, target 2135: the total is 1805 + 1.1x. */
  function Reference(initialStep: real, maxIterations: int): SeekInputs
  {
    SeekInputs(0.01, initialStep, maxIterations, 2135.0, 100.0, 200.0, 400.0, 0.1, 0.05, 1000.0)
  }

  /** Below 300 the reference campaign falls short of 2135; at 300 it meets it. */
  lemma ReferenceTotals(initialStep: real, maxIterations: int, x: real)
    requires 0.0 <= x <= 299.0
    ensures Below(Reference(initialStep, maxIterations), x)
    ensures Evaluate(Reference(initialStep, maxIterations), 300.0) == Ok(2135.0)
  {
    EvaluateLinear(Reference(initialStep, maxIterations), x);
    EvaluateLinear(Reference(initialStep, maxIterations), 300.0);
  }

  /** Step 10, at most 100 passes: 300 after 31 evaluations. */
  lemma ReferenceStep10()
    ensures Seek(Reference(10.0, 100), Start(Reference(10.0, 100))) == Ok(300.0)
  {
    var p := Reference(10.0, 100);
    forall i: nat | i < 30 ensures Below(p, Climbed(Start(p), i)) {
      ReferenceTotals(10.0, 100, Climbed(Start(p), i));
    }
    Climb(p, Start(p), 30);
    ReferenceTotals(10.0, 100, 0.0);
  }

  /** Step 1, at most 1000 passes: 300 after 301 evaluations. */
  lemma ReferenceStep1()
    ensures Seek(Reference(1.0, 1000), Start(Reference(1.0, 1000))) == Ok(300.0)
  {
    var p := Reference(1.0, 1000);
    forall i: nat | i < 300 ensures Below(p, Climbed(Start(p), i)) {
      ReferenceTotals(1.0, 1000, Climbed(Start(p), i));
    }
    Climb(p, Start(p), 300);
    ReferenceTotals(1.0, 1000, 0.0);
  }

  /** The first pass of the reference search, for any step: 1805 falls short, so the candidate rises by the step. */
  lemma ReferenceFirstPass(initialStep: real, maxIterations: int)
    requires 0 < maxIterations
    ensures Seek(Reference(initialStep, maxIterations), Start(Reference(initialStep, maxIterations))) ==
      Seek(Reference(initialStep, maxIterations), Search(initialStep, initialStep, 1))
  {
    var p := Reference(initialStep, maxIterations);
    EvaluateLinear(p, 0.0);
    SeekMiss(p, Start(p), 1805.0);
  }

  /** The second pass with step 1000: 2905 overshoots, so the candidate drops back to 0 and the step becomes 100. */
  lemma ReferenceStep1000Second(maxIterations: int)
    requires 1 < maxIterations
    ensures Seek(Reference(1000.0, maxIterations), Search(1000.0, 1000.0, 1)) ==
      Seek(Reference(1000.0, maxIterations), Search(100.0, 0.0, 2))
  {
    var p := Reference(1000.0, maxIterations);
    EvaluateLinear(p, 1000.0);
    SeekMiss(p, Search(1000.0, 1000.0, 1), 2905.0);
  }

  /** Step 1000, at most 100 passes: overshoots to 1000, steps back to 0 with step 100, then climbs to 300. */
  lemma ReferenceStep1000()
    ensures Seek(Reference(1000.0, 100), Start(Reference(1000.0, 100))) == Ok(300.0)
  {
    var p := Reference(1000.0, 100);
    ReferenceFirstPass(1000.0, 100);
    ReferenceStep1000Second(100);
    var s := Search(100.0, 0.0, 2);
    forall i: nat | i < 3 ensures Below(p, Climbed(s, i)) {
      ReferenceTotals(1000.0, 100, Climbed(s, i));
    }
    Climb(p, s, 3);
    assert Climbed(s, 3) == 300.0;
    ReferenceTotals(1000.0, 100, 0.0);
  }

  /** The normal-case test through the GoalSeek class: known [100, 200, 400], step 10, 100 passes. */
  method NormalCaseThroughGoalSeek() returns (r: Result<real>)
    ensures r == Ok(300.0)
  {
    var known := new real[] [100.0, 200.0, 400.0];
    var g := new GoalSeek(0.01, 10.0, 100, 2135.0, known, 0.1, 0.05, 1000.0);
    assert g.Inputs() == Reference(10.0, 100);
    ReferenceStep10();
    ghost var trace;
    r, trace := g.FindBudgetForAd3();
  }

  /** With no passes the search reads no known budget: even an empty array gives NonConvergence. */
  method NoPassesReadsNoBudget() returns (r: Result<real>)
    ensures r == Err(NonConvergence)
  {
    var none := new real[0];
    var g := new GoalSeek(0.01, 10.0, -100, 1500.0, none, 0.1, 0.05, 100.0);
    ghost var trace;
    r, trace := g.FindBudgetForAd3();
  }

  /** The parameters of the GoalSeek constructor theory: known [300, 200, 400], fixed cost 100, target 1500. */
  function Theory(tolerance: real, initialStep: real, maxIterations: int): SeekInputs
  {
    SeekInputs(tolerance, initialStep, maxIterations, 1500.0, 300.0, 200.0, 400.0, 0.1, 0.05, 100.0)
  }

  /**
   * With tolerance -0.01 every pass misses. The step stays in (0, 10], and the candidate
   * stays non-negative: it only drops from above 331, by at most 10. So the search
   * uses all its passes and never reaches the Campaign constructor's budget check.
   */
  lemma {:induction false} NegativeToleranceRunsOut(maxIterations: int, s: Search)
    requires 0.0 < s.step <= 10.0 && 0.0 <= s.candidate
    ensures Seek(Theory(-0.01, 10.0, maxIterations), s) == Err(NonConvergence)
    decreases Remaining(Theory(-0.01, 10.0, maxIterations), s)
  {
    var p := Theory(-0.01, 10.0, maxIterations);
    if s.iterations < maxIterations {
      EvaluateLinear(p, s.candidate);
      SeekMiss(p, s, 1135.0 + s.candidate * 1.1);
      NegativeToleranceRunsOut(maxIterations, Adjust(p, s, 1135.0 + s.candidate * 1.1));
    }
  }

  /**
   * The search outcomes for the theory's three inputs. A negative tolerance runs out of
   * passes. A negative step drives the candidate to -10, which the Campaign constructor
   * rejects. A negative pass count fails before any evaluation.
   */
  lemma ConstructorTheoryOutcomes()
    ensures Seek(Theory(-0.01, 10.0, 100), Start(Theory(-0.01, 10.0, 100))) == Err(NonConvergence)
    ensures Seek(Theory(0.01, -10.0, 100), Start(Theory(0.01, -10.0, 100))) == Err(InvalidInput(BadBudgets))
    ensures Seek(Theory(0.01, 10.0, -100), Start(Theory(0.01, 10.0, -100))) == Err(NonConvergence)
    ensures Trace(Theory(0.01, 10.0, -100), Start(Theory(0.01, 10.0, -100))) == []
  {
    NegativeToleranceRunsOut(100, Start(Theory(-0.01, 10.0, 100)));
    var p := Theory(0.01, -10.0, 100);
    EvaluateLinear(p, 0.0);
    assert Seek(p, Start(p)) == Seek(p, Search(-10.0, -10.0, 1));
    assert Budgets(p, -10.0)[2] < 0.0;
  }

  /**
   * The theory run through the class. Each GoalSeek is constructed without error, since the
   * constructor has no precondition and no error result. Only the searches fail, and none
   * with the ArgumentException the theory expects from construction.
   */
  method ConstructorTheoryThroughGoalSeek() returns (r1: Result<real>, r2: Result<real>, r3: Result<real>)
    ensures r1 == Err(NonConvergence)
    ensures r2 == Err(InvalidInput(BadBudgets))
    ensures r3 == Err(NonConvergence)
  {
    ConstructorTheoryOutcomes();
    var known := new real[] [300.0, 200.0, 400.0];
    var g1 := new GoalSeek(-0.01, 10.0, 100, 1500.0, known, 0.1, 0.05, 100.0);
    var g2 := new GoalSeek(0.01, -10.0, 100, 1500.0, known, 0.1, 0.05, 100.0);
    var g3 := new GoalSeek(0.01, 10.0, -100, 1500.0, known, 0.1, 0.05, 100.0);
    assert g1.Inputs() == Theory(-0.01, 10.0, 100);
    assert g2.Inputs() == Theory(0.01, -10.0, 100);
    ghost var trace;
    r1, trace := g1.FindBudgetForAd3();
    r2, trace := g2.FindBudgetForAd3();
    r3, trace := g3.FindBudgetForAd3();
  }

  /**
   * A tolerance of 0 can be met exactly: known [100, 200, 400] with target 1805 is met by
   * a zero budget for ad 3 on the first pass.
   */
  lemma ZeroToleranceCanSucceed()
    ensures var p := SeekInputs(0.0, 10.0, 1, 1805.0, 100.0, 200.0, 400.0, 0.1, 0.05, 1000.0);
      Seek(p, Start(p)) == Ok(0.0)
  {
    EvaluateLinear(SeekInputs(0.0, 10.0, 1, 1805.0, 100.0, 200.0, 400.0, 0.1, 0.05, 1000.0), 0.0);
  }

  /** Known [300, 200, 400], fixed cost 100, target 10000 and step 1000: the total is 1135 + 1.1x. */
  function TooFew(maxIterations: int): SeekInputs
  {
    SeekInputs(0.01, 1000.0, maxIterations, 10000.0, 300.0, 200.0, 400.0, 0.1, 0.05, 100.0)
  }

  /** Nine passes fall short and climb the candidate to 9000. */
  lemma TooFewClimb(maxIterations: int)
    requires 9 <= maxIterations
    ensures Seek(TooFew(maxIterations), Start(TooFew(maxIterations))) ==
      Seek(TooFew(maxIterations), Search(1000.0, 9000.0, 9))
  {
    var p := TooFew(maxIterations);
    var s := Start(p);
    forall i: nat | i < 9 ensures Below(p, Climbed(s, i)) {
      EvaluateLinear(p, Climbed(s, i));
    }
    Climb(p, s, 9);
    assert Climbed(s, 9) == 9000.0;
  }

  /** The tenth pass overshoots at 9000 (total 11035): back to 8000 with step 100. */
  lemma TooFewOvershoot(maxIterations: int)
    requires 9 < maxIterations
    ensures Seek(TooFew(maxIterations), Search(1000.0, 9000.0, 9)) ==
      Seek(TooFew(maxIterations), Search(100.0, 8000.0, 10))
  {
    var p := TooFew(maxIterations);
    EvaluateLinear(p, 9000.0);
    SeekMiss(p, Search(1000.0, 9000.0, 9), 11035.0);
  }

  /** Known [300, 200, 400], fixed cost 100, target 10000, step 1000, 10 passes: no convergence. */
  lemma TooFewIterations()
    ensures Seek(TooFew(10), Start(TooFew(10))) == Err(NonConvergence)
  {
    TooFewClimb(10);
    TooFewOvershoot(10);
    assert Seek(TooFew(10), Search(100.0, 8000.0, 10)) == Err(NonConvergence);
  }

  /** Known [300, 200, 400], fixed cost 100, target 1500, step 10 and tolerance 0 (exact match required). */
  function ZeroTolerance(maxIterations: int): SeekInputs
  {
    SeekInputs(0.0, 10.0, maxIterations, 1500.0, 300.0, 200.0, 400.0, 0.1, 0.05, 100.0)
  }

  function Pow10(k: nat): (r: nat)
    ensures r >= 1
  {
    if k == 0 then 1 else 10 * Pow10(k - 1)
  }

  /**
   * After k downward corrections the step is 10/10^k and the candidate is n/10^k; while the target is not overshot the candidate also stays non-negative.
   */
  predicate OnGrid(s: Search, k: nat, n: int)
  {
    s.step * (Pow10(k) as real) == 10.0 && s.candidate * (Pow10(k) as real) == n as real && 0.0 <= s.candidate
  }

  /** Multiplying by ten maps the residues 9 and 2 modulo 11 onto each other. */
  lemma TimesTenModEleven(m: int)
    requires m % 11 == 9 || m % 11 == 2
    ensures (10 * m) % 11 == 9 || (10 * m) % 11 == 2
  {
    var q := m / 11;
    if m % 11 == 9 {
      assert 10 * m == 11 * (10 * q + 8) + 2;
    } else {
      assert 10 * m == 11 * (10 * q + 1) + 9;
    }
  }

  lemma {:induction false} ElevenDoesNotDivide(k: nat)
    ensures (3650 * Pow10(k)) % 11 == 9 || (3650 * Pow10(k)) % 11 == 2
  {
    if k > 0 {
      ElevenDoesNotDivide(k - 1);
      TimesTenModEleven(3650 * Pow10(k - 1));
      assert 3650 * Pow10(k) == 10 * (3650 * Pow10(k - 1));
    }
  }

  lemma NotMultipleOfEleven(a: int, n: int)
    requires a % 11 == 9 || a % 11 == 2
    ensures a != 11 * n
  {
    assert (11 * n) % 11 == 0;
  }

  /** If c hit the solution 3650/11, then 11n would equal 3650*10^k. */
  lemma HitScales(c: real, power: real, n: int)
    requires c * power == n as real
    ensures c * 1.1 == 365.0 ==> 11.0 * (n as real) == 3650.0 * power
  {
    if c * 1.1 == 365.0 {
      assert c == 3650.0 / 11.0;
      assert c * power == (3650.0 / 11.0) * power;
    }
  }

  /** The exact solution 3650/11 lies on no decimal grid. */
  lemma SolutionOffGrid(c: real, k: nat, n: int)
    requires c * (Pow10(k) as real) == n as real
    ensures c * 1.1 != 365.0
  {
    ElevenDoesNotDivide(k);
    NotMultipleOfEleven(3650 * Pow10(k), n);
    HitScales(c, Pow10(k) as real, n);
    assert (3650 * Pow10(k)) as real == 3650.0 * (Pow10(k) as real);
    assert (11 * n) as real == 11.0 * (n as real);
  }

  lemma GridUp(c: real, step: real, power: real, n: int)
    requires step * power == 10.0 && c * power == n as real
    ensures (c + step) * power == (n + 10) as real
  {
  }

  lemma GridDown(c: real, step: real, power: real, power': real, n: int)
    requires step * power == 10.0 && c * power == n as real && power' == 10.0 * power
    ensures (step / 10.0) * power' == 10.0
    ensures (c - step) * power' == (10 * n - 100) as real
  {
  }

  lemma StepAtMostTen(step: real, power: real)
    requires step * power == 10.0 && power >= 1.0
    ensures 0.0 < step <= 10.0
  {
  }

  /** On this campaign the total is 1135 + 1.1x. */
  lemma ZeroToleranceValue(maxIterations: int, x: real)
    requires 0.0 <= x
    ensures Evaluate(ZeroTolerance(maxIterations), x) == Ok(1135.0 + x * 1.1)
  {
    EvaluateLinear(ZeroTolerance(maxIterations), x);
  }

  /** Climbing by the step keeps the state on the same grid. */
  lemma ZeroToleranceUp(s: Search, k: nat, n: int)
    requires OnGrid(s, k, n)
    ensures OnGrid(Search(s.step, s.candidate + s.step, s.iterations + 1), k, n + 10)
  {
    StepAtMostTen(s.step, Pow10(k) as real);
    GridUp(s.candidate, s.step, Pow10(k) as real, n);
  }

  /** Stepping back from above 331.8 lands on the next finer grid. */
  lemma ZeroToleranceDown(s: Search, k: nat, n: int)
    requires OnGrid(s, k, n) && 1500.0 < 1135.0 + s.candidate * 1.1
    ensures OnGrid(Search(s.step / 10.0, s.candidate - s.step, s.iterations + 1), k + 1, 10 * n - 100)
  {
    StepAtMostTen(s.step, Pow10(k) as real);
    GridDown(s.candidate, s.step, Pow10(k) as real, Pow10(k + 1) as real, n);
  }

  /** One pass of the zero-tolerance search from a grid state misses and lands on a grid again. */
  lemma ZeroToleranceStep(maxIterations: int, s: Search, k: nat, n: int)
    requires OnGrid(s, k, n)
    ensures var e := Evaluate(ZeroTolerance(maxIterations), s.candidate);
      e.Ok? && !Within(ZeroTolerance(maxIterations), e.value) &&
      (e.value < 1500.0 ==> OnGrid(Search(s.step, s.candidate + s.step, s.iterations + 1), k, n + 10)) &&
      (e.value >= 1500.0 ==>
        OnGrid(Search(s.step / 10.0, s.candidate - s.step, s.iterations + 1), k + 1, 10 * n - 100))
  {
    ZeroToleranceValue(maxIterations, s.candidate);
    SolutionOffGrid(s.candidate, k, n);
    ZeroToleranceUp(s, k, n);
    if 1500.0 < 1135.0 + s.candidate * 1.1 {
      ZeroToleranceDown(s, k, n);
    }
  }

  /** With tolerance 0 the search from any grid state never matches 1500 exactly and runs out of passes. */
  lemma {:induction false} ZeroToleranceNeverMatches(maxIterations: int, s: Search, k: nat, n: int)
    requires OnGrid(s, k, n)
    ensures Seek(ZeroTolerance(maxIterations), s) == Err(NonConvergence)
    decreases Remaining(ZeroTolerance(maxIterations), s)
  {
    var p := ZeroTolerance(maxIterations);
    if s.iterations < maxIterations {
      ZeroToleranceStep(maxIterations, s, k, n);
      var total := Evaluate(p, s.candidate).value;
      if total < 1500.0 {
        ZeroToleranceNeverMatches(maxIterations, Search(s.step, s.candidate + s.step, s.iterations + 1), k, n + 10);
      } else {
        ZeroToleranceNeverMatches(maxIterations, Search(s.step / 10.0, s.candidate - s.step, s.iterations + 1),
          k + 1, 10 * n - 100);
      }
    }
  }

  /** The zero-tolerance test: whatever the number of passes, no budget is ever returned. */
  lemma ZeroToleranceTest(maxIterations: int)
    ensures Seek(ZeroTolerance(maxIterations), Start(ZeroTolerance(maxIterations))) == Err(NonConvergence)
  {
    ZeroToleranceNeverMatches(maxIterations, Start(ZeroTolerance(maxIterations)), 0, 0);
  }
}
