/**
 * The goal seek: find the budget of ad 3 for which the campaign total meets a target
 * total within a tolerance, by stepping the candidate up while the total is too low and
 * stepping it down (and shrinking the step tenfold) otherwise.
 */
module GoalSeeking {
  import opened Outcomes
  import opened Campaigns

  function Abs(x: real): real
  {
    if x < 0.0 then -x else x
  }

  /** Everything a GoalSeek is constructed with; x1, x2 and x4 are the known budgets of ads 1, 2 and 4. */
  datatype SeekInputs = SeekInputs(
    tolerance: real, initialStep: real, maxIterations: int, target: real,
    x1: real, x2: real, x4: real,
    agencyFee: real, toolFee: real, fixedCosts: real)

  /** The state the search loop carries from one pass to the next. */
  datatype Search = Search(step: real, candidate: real, iterations: int)

  /** The campaign evaluated for a candidate budget x of ad 3. */
  function Budgets(p: SeekInputs, x: real): seq<real>
  {
    [p.x1, p.x2, x, p.x4]
  }

  /** Building a Campaign for candidate x and asking for its total; the constructor's error surfaces. */
  function Evaluate(p: SeekInputs, x: real): (r: Result<real>)
    ensures r.Ok? <==> WellFormed(Budgets(p, x), p.agencyFee, p.toolFee, p.fixedCosts)
    ensures r.Ok? ==> r.value == TotalBudget(Budgets(p, x), p.agencyFee, p.toolFee, p.fixedCosts)
    ensures r.Err? ==> r.error.InvalidInput?
  {
    var b := Budgets(p, x);
    match CheckInputs(b, p.agencyFee, p.toolFee, p.fixedCosts)
    case Some(e) => Err(InvalidInput(e))
    case None => Ok(TotalBudget(b, p.agencyFee, p.toolFee, p.fixedCosts))
  }

  predicate Within(p: SeekInputs, total: real)
  {
    Abs(total - p.target) <= p.tolerance
  }

  function Start(p: SeekInputs): Search
  {
    Search(p.initialStep, 0.0, 0)
  }

  /** One adjustment of the source's loop body. */
  function Adjust(p: SeekInputs, s: Search, total: real): Search
  {
    if total < p.target then Search(s.step, s.candidate + s.step, s.iterations + 1)
    else Search(s.step / 10.0, s.candidate - s.step, s.iterations + 1)
  }

  /** Passes of the loop still allowed from state s. */
  function Remaining(p: SeekInputs, s: Search): nat
  {
    if s.iterations < p.maxIterations then p.maxIterations - s.iterations else 0
  }

  /** The outcome of the search loop when entered in state s. */
  function Seek(p: SeekInputs, s: Search): Result<real>
    decreases Remaining(p, s)
  {
    if s.iterations >= p.maxIterations then Err(NonConvergence)
    else match Evaluate(p, s.candidate)
      case Err(e) => Err(e)
      case Ok(total) =>
        if Within(p, total) then Ok(s.candidate) else Seek(p, Adjust(p, s, total))
  }

  /** The states in which the search loop, entered in state s, builds and evaluates a Campaign. */
  function Trace(p: SeekInputs, s: Search): seq<Search>
    decreases Remaining(p, s)
  {
    if s.iterations >= p.maxIterations then []
    else match Evaluate(p, s.candidate)
      case Err(_) => [s]
      case Ok(total) =>
        if Within(p, total) then [s] else [s] + Trace(p, Adjust(p, s, total))
  }

  /**
   * The update rule between two consecutive evaluated states: the evaluation succeeded
   * and missed the target; below it the candidate rises by the step and the step stays,
   * otherwise the candidate drops by the step and the step is divided by ten.
   */
  ghost predicate Advances(p: SeekInputs, a: Search, b: Search)
  {
    var e := Evaluate(p, a.candidate);
    e.Ok? && !Within(p, e.value) && b.iterations == a.iterations + 1 &&
    if e.value < p.target then b.step == a.step && b.candidate == a.candidate + a.step
    else b.step == a.step / 10.0 && b.candidate == a.candidate - a.step
  }

  /** A returned budget is a valid ad 3 budget whose campaign total meets the target within tolerance. */
  lemma {:induction false} SeekSound(p: SeekInputs, s: Search)
    ensures Seek(p, s).Ok? ==>
      WellFormed(Budgets(p, Seek(p, s).value), p.agencyFee, p.toolFee, p.fixedCosts) &&
      0.0 <= Seek(p, s).value &&
      Abs(TotalBudget(Budgets(p, Seek(p, s).value), p.agencyFee, p.toolFee, p.fixedCosts) - p.target) <= p.tolerance
    decreases Remaining(p, s)
  {
    if s.iterations < p.maxIterations {
      match Evaluate(p, s.candidate)
      case Err(_) =>
      case Ok(total) =>
        if !Within(p, total) {
          SeekSound(p, Adjust(p, s, total));
        } else {
          assert Budgets(p, s.candidate)[2] == s.candidate;
        }
    }
  }

  /** A negative tolerance can never be met: the search then never returns a budget. */
  lemma {:induction false} NegativeToleranceNeverSucceeds(p: SeekInputs, s: Search)
    requires p.tolerance < 0.0
    ensures !Seek(p, s).Ok?
  {
    SeekSound(p, s);
  }

  /**
   * The number of evaluations is bounded by the passes left; with none left nothing is
   * evaluated; otherwise the first evaluation is in the entry state; a non-converged
   * search used every pass.
   */
  lemma {:induction false} TraceLength(p: SeekInputs, s: Search)
    ensures |Trace(p, s)| <= Remaining(p, s)
    ensures Remaining(p, s) == 0 ==> Trace(p, s) == [] && Seek(p, s) == Err(NonConvergence)
    ensures Remaining(p, s) > 0 ==> |Trace(p, s)| > 0 && Trace(p, s)[0] == s
    ensures Seek(p, s) == Err(NonConvergence) ==> |Trace(p, s)| == Remaining(p, s)
    decreases Remaining(p, s)
  {
    if s.iterations < p.maxIterations {
      match Evaluate(p, s.candidate)
      case Err(_) =>
      case Ok(total) =>
        if !Within(p, total) {
          TraceLength(p, Adjust(p, s, total));
        }
    }
  }

  /** Every evaluated state carries the number of earlier passes, and consecutive ones follow the update rule. */
  lemma {:induction false} TraceFollowsRule(p: SeekInputs, s: Search)
    ensures forall i :: 0 <= i < |Trace(p, s)| ==> Trace(p, s)[i].iterations == s.iterations + i
    ensures forall i :: 0 <= i < |Trace(p, s)| - 1 ==> Advances(p, Trace(p, s)[i], Trace(p, s)[i + 1])
    decreases Remaining(p, s)
  {
    if s.iterations < p.maxIterations {
      match Evaluate(p, s.candidate)
      case Err(_) =>
      case Ok(total) =>
        if !Within(p, total) {
          var s' := Adjust(p, s, total);
          var t, t' := Trace(p, s), Trace(p, s');
          assert t == [s] + t';
          TraceFollowsRule(p, s');
          TraceLength(p, s');
          forall i | 0 <= i < |t| ensures t[i].iterations == s.iterations + i {
            if i > 0 { assert t[i] == t'[i - 1]; }
          }
          forall i | 0 <= i < |t| - 1 ensures Advances(p, t[i], t[i + 1]) {
            if i > 0 {
              assert t[i] == t'[i - 1] && t[i + 1] == t'[i];
            } else {
              assert t[1] == s';
            }
          }
        }
    }
  }

  /**
   * The outcome is decided by the last evaluation: an error it raised is returned as
   * is, a total within tolerance returns that candidate, and anything else means the
   * passes ran out.
   */
  lemma {:induction false} TraceDecidesOutcome(p: SeekInputs, s: Search)
    ensures Trace(p, s) == [] ==> Seek(p, s) == Err(NonConvergence)
    ensures Trace(p, s) != [] ==>
      var last := Trace(p, s)[|Trace(p, s)| - 1];
      var e := Evaluate(p, last.candidate);
      (e.Err? ==> Seek(p, s) == e) &&
      (e.Ok? && Within(p, e.value) ==> Seek(p, s) == Ok(last.candidate)) &&
      (e.Ok? && !Within(p, e.value) ==> Seek(p, s) == Err(NonConvergence))
    decreases Remaining(p, s)
  {
    if s.iterations < p.maxIterations {
      match Evaluate(p, s.candidate)
      case Err(_) =>
      case Ok(total) =>
        if !Within(p, total) {
          var s' := Adjust(p, s, total);
          TraceDecidesOutcome(p, s');
          var t, t' := Trace(p, s), Trace(p, s');
          assert t == [s] + t';
          if t' != [] {
            assert t[|t| - 1] == t'[|t'| - 1];
          }
        }
    }
  }

  /** On valid fees and known budgets, the total grows by 1 + Y1 for every unit added to ad 3. */
  lemma EvaluateLinear(p: SeekInputs, x: real)
    requires WellFormed([p.x1, p.x2, 0.0, p.x4], p.agencyFee, p.toolFee, p.fixedCosts) && 0.0 <= x
    ensures Evaluate(p, x) ==
      Ok((p.x1 + p.x2 + p.x4) * (1.0 + p.agencyFee + p.toolFee) + p.fixedCosts + x * (1.0 + p.agencyFee))
  {
    var b := Budgets(p, x);
    assert WellFormed(b, p.agencyFee, p.toolFee, p.fixedCosts) by {
      var z := [p.x1, p.x2, 0.0, p.x4];
      assert z[0] >= 0.0 && z[1] >= 0.0 && z[3] >= 0.0;
    }
    assert Sum(b) == p.x1 + p.x2 + p.x4 + x by { Sum4(p.x1, p.x2, x, p.x4); }
    assert TotalBudget(b, p.agencyFee, p.toolFee, p.fixedCosts) ==
      (p.x1 + p.x2 + p.x4 + x) + (p.x1 + p.x2 + p.x4 + x) * p.agencyFee + (p.x1 + p.x2 + p.x4) * p.toolFee + p.fixedCosts;
    RingStep(p.x1 + p.x2 + p.x4, x, p.agencyFee, p.toolFee, p.fixedCosts);
  }

  lemma RingStep(k: real, x: real, a: real, t: real, f: real)
    ensures (k + x) + (k + x) * a + k * t + f == k * (1.0 + a + t) + f + x * (1.0 + a)
  {
    assert (k + x) * a == k * a + x * a;
    assert k * (1.0 + a + t) == k + k * a + k * t;
    assert x * (1.0 + a) == x + x * a;
  }

  /**
   * Errors propagate: when the campaign with ad 3 at zero already overshoots the target,
   * the first downward step gives a negative candidate, and the search fails with the
   * Campaign constructor's InvalidInput instead of continuing.
   */
  lemma OvershootAtZeroFails(p: SeekInputs)
    requires WellFormed([p.x1, p.x2, 0.0, p.x4], p.agencyFee, p.toolFee, p.fixedCosts)
    requires p.initialStep > 0.0 && p.maxIterations >= 2 && p.tolerance >= 0.0
    requires Evaluate(p, 0.0).Ok? && Evaluate(p, 0.0).value > p.target + p.tolerance
    ensures Seek(p, Start(p)) == Err(InvalidInput(BadBudgets))
  {
    var s0 := Start(p);
    var total := Evaluate(p, 0.0).value;
    assert !Within(p, total) && !(total < p.target);
    var s1 := Search(p.initialStep / 10.0, -p.initialStep, 1);
    assert Adjust(p, s0, total) == s1;
    assert Seek(p, s0) == Seek(p, s1);
    assert Budgets(p, -p.initialStep)[2] < 0.0;
    assert Evaluate(p, -p.initialStep) == Err(InvalidInput(BadBudgets));
  }

  /** The i-th candidate of a climb from s with a constant step. */
  function Climbed(s: Search, i: nat): real
  {
    s.candidate + (i as real) * s.step
  }

  lemma ClimbedShift(s: Search, i: nat)
    ensures Climbed(Search(s.step, s.candidate + s.step, s.iterations + 1), i) == Climbed(s, i + 1)
  {
    assert ((i + 1) as real) * s.step == (i as real) * s.step + s.step;
  }

  /** The evaluation at x succeeds and falls short of the target by more than the tolerance. */
  predicate Below(p: SeekInputs, x: real)
  {
    var e := Evaluate(p, x);
    e.Ok? && e.value < p.target && !Within(p, e.value)
  }

  /** n passes that all fall short climb the candidate by n steps without touching the step. */
  lemma {:induction false} Climb(p: SeekInputs, s: Search, n: nat)
    requires s.iterations + n <= p.maxIterations
    requires forall i: nat :: i < n ==> Below(p, Climbed(s, i))
    ensures Seek(p, s) == Seek(p, Search(s.step, Climbed(s, n), s.iterations + n))
    decreases n
  {
    if n > 0 {
      var s' := Search(s.step, s.candidate + s.step, s.iterations + 1);
      assert Climbed(s, 0) == s.candidate;
      assert Below(p, s.candidate);
      assert Seek(p, s) == Seek(p, s');
      forall i: nat | i < n - 1 ensures Below(p, Climbed(s', i)) {
        ClimbedShift(s, i);
      }
      Climb(p, s', n - 1);
      ClimbedShift(s, n - 1);
      assert Search(s'.step, Climbed(s', n - 1), s'.iterations + (n - 1)) ==
        Search(s.step, Climbed(s, n), s.iterations + n);
    } else {
      assert Climbed(s, 0) == s.candidate;
      assert Search(s.step, Climbed(s, n), s.iterations + n) == s;
    }
  }

  /** A pass that evaluates to total and misses the target hands over to the adjusted state. */
  lemma SeekMiss(p: SeekInputs, s: Search, total: real)
    requires s.iterations < p.maxIterations && Evaluate(p, s.candidate) == Ok(total) && !Within(p, total)
    ensures Seek(p, s) == Seek(p, Adjust(p, s, total))
    ensures Trace(p, s) == [s] + Trace(p, Adjust(p, s, total))
  {
  }

  /** A pass whose evaluation fails or meets the target is the last one. */
  lemma SeekStop(p: SeekInputs, s: Search)
    requires s.iterations < p.maxIterations
    requires Evaluate(p, s.candidate).Err? || Within(p, Evaluate(p, s.candidate).value)
    ensures Seek(p, s) == if Evaluate(p, s.candidate).Err? then Evaluate(p, s.candidate) else Ok(s.candidate)
    ensures Trace(p, s) == [s]
  {
  }

  /** With no pass left the search evaluates nothing and fails. */
  lemma SeekExhausted(p: SeekInputs, s: Search)
    ensures s.iterations >= p.maxIterations ==> Seek(p, s) == Err(NonConvergence) && Trace(p, s) == []
  {
  }

  class GoalSeek {
    const tolerance: real
    const initialStep: real
    const maxIterations: int
    const campaignTotalBudget: real
    const adBudgets: array<real>
    const agencyFeePercentage: real
    const thirdPartyToolFeesPercentage: real
    const fixedAgencyCosts: real

    /** Stores its parameters; it validates none of them. */
    constructor (tolerance: real, initialStep: real, maxIterations: int, campaignTotalBudget: real,
                 adBudgets: array<real>, agencyFeePercentage: real, thirdPartyToolFeesPercentage: real,
                 fixedAgencyCosts: real)
      ensures this.tolerance == tolerance && this.initialStep == initialStep
      ensures this.maxIterations == maxIterations && this.campaignTotalBudget == campaignTotalBudget
      ensures this.adBudgets == adBudgets && this.agencyFeePercentage == agencyFeePercentage
      ensures this.thirdPartyToolFeesPercentage == thirdPartyToolFeesPercentage
      ensures this.fixedAgencyCosts == fixedAgencyCosts
    {
      this.tolerance := tolerance;
      this.initialStep := initialStep;
      this.maxIterations := maxIterations;
      this.campaignTotalBudget := campaignTotalBudget;
      this.adBudgets := adBudgets;
      this.agencyFeePercentage := agencyFeePercentage;
      this.thirdPartyToolFeesPercentage := thirdPartyToolFeesPercentage;
      this.fixedAgencyCosts := fixedAgencyCosts;
    }

    /** The known budget at index i; one the array lacks reads as 0 (a search that has no passes reads none). */
    function Known(i: nat): real
      reads adBudgets
    {
      if i < adBudgets.Length then adBudgets[i] else 0.0
    }

    function Inputs(): SeekInputs
      reads this, adBudgets
    {
      SeekInputs(tolerance, initialStep, maxIterations, campaignTotalBudget,
                 Known(0), Known(1), Known(2),
                 agencyFeePercentage, thirdPartyToolFeesPercentage, fixedAgencyCosts)
    }

    /** The body of one pass: build the Campaign [a0, a1, x, a2] and ask for its total budget. */
    method TotalFor(budgetAd3: real) returns (r: Result<real>)
      requires adBudgets.Length >= 3
      ensures r == Evaluate(Inputs(), budgetAd3)
    {
      var budgets := new real[] [adBudgets[0], adBudgets[1], budgetAd3, adBudgets[2]];
      assert budgets[..] == Budgets(Inputs(), budgetAd3);
      var campaign := Campaign.Create(budgets, agencyFeePercentage, thirdPartyToolFeesPercentage, fixedAgencyCosts);
      if campaign.Err? {
        return Err(campaign.error);
      }
      var total := campaign.value.CalculateTotalBudget();
      return Ok(total);
    }

    /**
     * The search loop. Its outcome is Seek from the start state (candidate 0, the initial
     * step, no passes yet), and trace lists the states in which it evaluated a Campaign.
     * Every pass reads three known budgets; with no passes the array is never read.
     */
    method FindBudgetForAd3() returns (r: Result<real>, ghost trace: seq<Search>)
      requires maxIterations <= 0 || adBudgets.Length >= 3
      ensures maxIterations <= 0 ==> r == Err(NonConvergence) && trace == []
      ensures r == Seek(Inputs(), Start(Inputs()))
      ensures trace == Trace(Inputs(), Start(Inputs()))
    {
      ghost var p := Inputs();
      var step := initialStep;
      var budgetAd3 := 0.0;
      var iterations := 0;
      trace := [];

      while iterations < maxIterations
        invariant 0 <= iterations
        invariant Seek(p, Search(step, budgetAd3, iterations)) == Seek(p, Start(p))
        invariant trace + Trace(p, Search(step, budgetAd3, iterations)) == Trace(p, Start(p))
        decreases maxIterations - iterations
      {
        ghost var s := Search(step, budgetAd3, iterations);
        var evaluated := TotalFor(budgetAd3);
        if evaluated.Err? {
          SeekStop(p, s);
          trace := trace + [s];
          return Err(evaluated.error), trace;
        }
        var calculatedBudget := evaluated.value;

        assert Within(p, calculatedBudget) <==> Abs(calculatedBudget - campaignTotalBudget) <= tolerance;
        assert calculatedBudget < p.target <==> calculatedBudget < campaignTotalBudget;
        if Abs(calculatedBudget - campaignTotalBudget) <= tolerance {
          SeekStop(p, s);
          trace := trace + [s];
          return Ok(budgetAd3), trace;
        }

        if calculatedBudget < campaignTotalBudget {
          budgetAd3 := budgetAd3 + step;
        } else {
          budgetAd3 := budgetAd3 - step;
          step := step / 10.0;
        }
        iterations := iterations + 1;
        assert Search(step, budgetAd3, iterations) == Adjust(p, s, calculatedBudget);
        SeekMiss(p, s, calculatedBudget);
        assert (trace + [s]) + Trace(p, Adjust(p, s, calculatedBudget)) ==
          trace + ([s] + Trace(p, Adjust(p, s, calculatedBudget)));
        trace := trace + [s];
      }
      SeekExhausted(p, Search(step, budgetAd3, iterations));
      SeekExhausted(p, Start(p));
      return Err(NonConvergence), trace;
    }
  }
}
