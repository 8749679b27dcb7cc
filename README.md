# Campaign media planning: budget formula and goal seek

This project models the two pieces of logic in the campaign media planning tool.

- `Campaign` holds a list of ad budgets, an agency fee rate Y1, a third-party tool fee rate Y2 and a fixed agency cost.
  - It checks its inputs eagerly.
  - It caches the total ad spend X.
  - Its total budget is Z = X + X*Y1 + (X1 + X2 + X4)*Y2 + fixed cost.
- `GoalSeek` finds the budget of ad 3 for which Z meets a target within a tolerance.
  - It steps a candidate up by `step` while Z is below the target.
  - Otherwise it steps the candidate down and divides `step` by ten.
  - It fails after `maxIterations` passes.

Modules:

- `Outcomes` (`outcomes.dfy`): the source's exceptions become values.
  - `InvalidInput` stands for `ArgumentException` and names the check that failed.
  - `NonConvergence` stands for the plain `Exception` thrown after the loop.
- `Campaigns` (`campaign.dfy`): pure definitions of the formula and of the checks, plus the `Campaign` class.
  - The class keeps the source's fields. `totalAdSpend` is its one mutable field.
  - `CalculateTotalAdBudget` is the summing loop that writes `totalAdSpend`.
  - The throwing constructor is split in two. `Campaign.Create` makes the checks and returns `Err` or a fresh valid campaign. The Dafny constructor then assigns the fields and runs the summing loop.
- `GoalSeeking` (`goal_seek.dfy`): the search.
  - `Seek` is the outcome of the loop from a given state, as a function.
  - `Trace` is the list of states in which the loop builds and evaluates a `Campaign`.
  - The class `GoalSeek` holds the loop itself, `FindBudgetForAd3`. It is proved to return `Seek` from the start state and to evaluate exactly the states of `Trace`.
  - The body of one pass, which builds a `Campaign` and asks for its total, is the method `TotalFor`.
- `Scenarios` (`scenarios.dfy`): the repository's test cases, stated under exact real arithmetic.

All amounts are Dafny `real`, so sums and products are exact.

Two of the repository's tests give reasons the code does not bear out; the model follows the code:

- The test theory at campaign-media-planning-xunit/GoalSeekTests.cs:131-145 expects an `ArgumentException` from the `GoalSeek` constructor. That constructor only stores its parameters (utils/GoalSeek.cs:60-70), so nothing there can throw. `ConstructorTheoryOutcomes` states what the code does with the theory's three inputs instead, and `ConstructorTheoryThroughGoalSeek` builds the three objects and runs their searches.
- The zero-tolerance test at campaign-media-planning-xunit/GoalSeekTests.cs:56-74 expects the search to throw. The assertion holds for its inputs; only its stated reason, that tolerance 0 demands an exact match, claims more than the code does.
  - Under exact real arithmetic, for that test's inputs the search never returns a budget, whatever the number of passes (`ZeroToleranceTest`). The exact solution 3650/11 is not a finite decimal, so no candidate the search can reach hits it. Under doubles, enough passes can round the total onto the target.
  - Tolerance 0 alone does not force a failure: `ZeroToleranceCanSucceed` gives an input whose first candidate hits the target exactly.

## Model

| member | source | states |
|---|---|---|
| Campaigns.CheckInputs | utils/Campaign.cs:45-63 | The validation fails iff the budgets are empty or hold a negative budget, a rate is outside [0, 1], or the fixed cost is negative. The error reported is the first failing check, in the source's order. |
| Campaigns.SumNonNegative | utils/Campaign.cs:76-91 | The sum of non-negative budgets is non-negative. |
| Campaigns.SumUpdate | utils/Campaign.cs:81-84 | Replacing one budget changes the ad spend by exactly the difference, at every index. |
| Campaigns.ChangeOneBudget | utils/Campaign.cs:111-113 | Changing budget i by d changes Z by d*(1 + Y1 + Y2) for i in {0, 1, 3}, and by d*(1 + Y1) for index 2 or any index from 4 up. Those budgets pay the agency fee but never the tool fee. |
| Campaigns.TotalBudgetLowerBound | utils/Campaign.cs:123-133 | On valid inputs the ad spend is non-negative and Z is at least the ad spend plus the fixed cost. |
| Campaigns.Campaign.Create | utils/Campaign.cs:43-70 | Returns an error iff the array is null or a check fails, and names the failing check (null is reported like an empty array). Otherwise returns a fresh campaign that holds the given inputs, whose cached spend is their sum. |
| Campaigns.Campaign.constructor | utils/Campaign.cs:65-69 | Stores the validated inputs; afterwards the campaign holds them and its cached spend is the sum of all budgets. |
| Campaigns.Campaign.CalculateTotalAdBudget | utils/Campaign.cs:76-91 | The loop returns the sum of every budget and stores it as the ad spend. |
| Campaigns.Campaign.SpendNonNegative | utils/Campaign.cs:69 | A valid campaign's cached spend is non-negative, and its agency fee lies between zero and that spend. |
| Campaigns.Campaign.CalculateAgencyFee | utils/Campaign.cs:97-102 | The agency fee is never negative and never more than the ad spend. |
| Campaigns.Campaign.CalculateThirdPartyToolFees | utils/Campaign.cs:111-116 | For a non-negative base X1 + X2 + X4, the tool fee lies between zero and that base. |
| Campaigns.Campaign.CalculateTotalBudget | utils/Campaign.cs:123-133 | Z = X + X*Y1 + (b[0] + b[1] + b[3])*Y2 + fixed cost over the stored budgets. It needs four budgets because it reads index 3, and Z is at least the spend plus the fixed cost. |
| GoalSeeking.Evaluate | utils/GoalSeek.cs:94-95 | Building the campaign [a0, a1, x, a2] succeeds iff its inputs pass the checks, and then yields its Z. Otherwise the result is the constructor's InvalidInput. |
| GoalSeeking.SeekSound | utils/GoalSeek.cs:94-101 | A returned budget v is non-negative, [a0, a1, v, a2] is a valid campaign, and its Z is within tolerance of the target. |
| GoalSeeking.NegativeToleranceNeverSucceeds | utils/GoalSeek.cs:98 | With a negative tolerance the search never returns a budget. |
| GoalSeeking.TraceLength | utils/GoalSeek.cs:87-119 | The search makes at most maxIterations evaluations, and the first is at the entry state. With no passes left it evaluates nothing and fails with NonConvergence. A search that fails with NonConvergence has used every pass. |
| GoalSeeking.TraceFollowsRule | utils/GoalSeek.cs:105-115 | The i-th evaluated state has i passes behind it, and each state follows from the one before by the update rule. If Z is below the target, the candidate rises by the step and the step is unchanged. Otherwise the candidate drops by the step and the step is divided by ten. |
| GoalSeeking.TraceDecidesOutcome | utils/GoalSeek.cs:94-119 | The last evaluation decides the outcome. If the Campaign constructor raised an error, that error is returned unchanged. A total within tolerance returns that candidate. A miss means NonConvergence. |
| GoalSeeking.EvaluateLinear | utils/GoalSeek.cs:94-95 | For valid fees and known budgets and x >= 0, Z is (a0 + a1 + a2)*(1 + Y1 + Y2) + fixed cost + x*(1 + Y1). Ad 3 pays no tool fee. |
| GoalSeeking.OvershootAtZeroFails | utils/GoalSeek.cs:109-113 | If Z already overshoots at candidate 0, the first downward step makes the candidate negative. The search then fails with the constructor's InvalidInput and does not continue. |
| GoalSeeking.Climb | utils/GoalSeek.cs:105-108 | n passes that all fall short raise the candidate by n steps, with the step unchanged. |
| GoalSeeking.GoalSeek.constructor | utils/GoalSeek.cs:60-70 | Stores every parameter as given. It makes no check. |
| GoalSeeking.GoalSeek.TotalFor | utils/GoalSeek.cs:94-95 | One pass's body. Building the Campaign [a0, a1, x, a2] and asking for its total gives exactly Evaluate: Z, or the constructor's InvalidInput. |
| GoalSeeking.GoalSeek.FindBudgetForAd3 | utils/GoalSeek.cs:77-120 | The loop starts at candidate 0 with the initial step and no passes. It returns exactly Seek from that state, and it evaluates a Campaign in exactly the states of Trace. With no passes allowed it fails with NonConvergence without evaluating anything, whatever the array holds. |
| Scenarios.CampaignTotals | campaign-media-planning-xunit/CampaignTests.cs:41-151 | Budgets [100, 200, 300, 400] with fixed cost 1000 total 2135 at rates (0.1, 0.05), 2035 at (0, 0.05) and 2100 at (0.1, 0). |
| Scenarios.TotalOfReferenceCampaign | campaign-media-planning-xunit/CampaignTests.cs:41-53 | Constructing that campaign through the class and asking for its total gives 2135. |
| Scenarios.AcceptedCampaign | campaign-media-planning-xunit/CampaignTests.cs:9-23 | The valid construction of the tests, budgets [1000, 2000, 3000, 4000] with rates 0.1 and 0.2 and fixed cost 500, passes every check. |
| Scenarios.RejectedCampaigns | campaign-media-planning-xunit/CampaignTests.cs:26-119 | Each invalid construction of the tests is rejected, by the check the source makes first. |
| Scenarios.NullBudgetsRejected | campaign-media-planning-xunit/CampaignTests.cs:66-75 | A null budget array is rejected with the budget error. |
| Scenarios.ReferenceStep10 | campaign-media-planning-xunit/GoalSeekTests.cs:9-32 | Target 2135 with known [100, 200, 400] and step 10 returns 300 within 100 passes. |
| Scenarios.NormalCaseThroughGoalSeek | campaign-media-planning-xunit/GoalSeekTests.cs:9-32 | The same search run through the GoalSeek class returns 300. |
| Scenarios.ReferenceStep1 | campaign-media-planning-xunit/GoalSeekTests.cs:77-101 | With step 1 and 1000 passes the search returns 300. |
| Scenarios.ReferenceStep1000 | campaign-media-planning-xunit/GoalSeekTests.cs:104-128 | With step 1000 the search overshoots to 1000, steps back to 0 with step 100, and climbs to 300. |
| Scenarios.TooFewIterations | campaign-media-planning-xunit/GoalSeekTests.cs:35-53 | Target 10000 with known [300, 200, 400], step 1000 and 10 passes fails with NonConvergence. |
| Scenarios.NoPassesReadsNoBudget | utils/GoalSeek.cs:87-119 | Through the class: with -100 passes, even an empty array of known budgets gives NonConvergence. |
| Scenarios.ConstructorTheoryOutcomes | campaign-media-planning-xunit/GoalSeekTests.cs:131-145 | For the theory's three inputs: tolerance -0.01 uses up its 100 passes and fails with NonConvergence. Step -10 fails with the Campaign's budget error. -100 passes fails with NonConvergence before any evaluation. |
| Scenarios.NegativeToleranceRunsOut | campaign-media-planning-xunit/GoalSeekTests.cs:131-145 | With tolerance -0.01 and the theory's other inputs, from any state with step in (0, 10] and a non-negative candidate, the search ends in NonConvergence for every pass count: it never returns a budget and never hits the Campaign's budget error. |
| Scenarios.ConstructorTheoryThroughGoalSeek | campaign-media-planning-xunit/GoalSeekTests.cs:131-145 | The three GoalSeeks of the theory are built without error, since the constructor has no precondition and no error result; their searches then return NonConvergence, the Campaign's budget error and NonConvergence. |
| Scenarios.ZeroToleranceNeverMatches | campaign-media-planning-xunit/GoalSeekTests.cs:56-74 | From any state on the decimal grid (step 10/10^k, candidate n/10^k, non-negative), the zero-tolerance search misses 1500 on every pass and fails with NonConvergence. |
| Scenarios.ZeroToleranceTest | campaign-media-planning-xunit/GoalSeekTests.cs:56-74 | With tolerance 0, target 1500 and known [300, 200, 400], under exact reals the search never returns a budget, whatever the number of passes. |
| Scenarios.ZeroToleranceCanSucceed | utils/GoalSeek.cs:98 | Tolerance 0 is met when Z equals the target exactly. Known [100, 200, 400] with target 1805 returns 0 on the first pass. |

## Left out

- Console output (`Console.WriteLine`, `Console.ForegroundColor`) in both classes: it is a side effect with no contract.
- utils/UserInput.cs is not part of this model. It reads numbers from the console.
- utils/CampaignManager.cs is not part of this model. It orchestrates the prompts, prints, and catches every exception.
- IEEE-754 doubles: the model computes over exact reals, so rounding is not modelled, nor are NaN and infinity, nor test outcomes that hinge on the binary representation. A NaN budget, rate or fixed cost passes every check at utils/Campaign.cs:45-63, since every comparison with NaN is false; a real cannot be NaN.
- Exception classes: only two outcomes are kept, InvalidInput (ArgumentException) and NonConvergence (Exception). The message texts are dropped.
- GoalSeeking.GoalSeek.FindBudgetForAd3: when passes are allowed, it requires at least three known budgets. The source would fail on the first pass with an IndexOutOfRangeException, which the model does not represent. With no passes the source throws its non-convergence exception without reading the array, and the model covers that case for an array of any length. A null array is not modelled, because the field has a non-null array type; every caller passes three known budgets.
- Campaigns.Campaign.CalculateTotalBudget: requires at least four budgets, for the same reason; the constructor accepts any non-empty array.
- Campaigns.Campaign.Valid: the class shares the caller's array, as the source does. A change the caller makes to that array after construction falls outside `Valid()`. The source would then keep a stale cached spend.
- Campaigns.Campaign.CalculateAgencyFee: its contract gives bounds relative to the cached spend, not the product X*Y1. The exact value enters through CalculateTotalBudget, whose contract is the full formula.
- Campaigns.Campaign.CalculateThirdPartyToolFees: its contract gives only bounds. The exact value enters through CalculateTotalBudget.
- That `CalculateTotalBudget` returns the same value on repeated calls holds by construction: it is a function that reads the campaign and changes nothing.
