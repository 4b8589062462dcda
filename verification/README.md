# A/B test simulation and analysis, modelled in Dafny

This project models the core of a small A/B-testing toolkit for a signup funnel:

- **Assignment.** Users are bucketed deterministically into arms "A" and "B" by hashing
  their id with MD5.
- **Simulation.** A simulator generates users and assigns them. It then draws signups
  (with non-compliance and a treatment lift on exposed users) and purchases among
  signups.
- **Analysis.** The analysis computes per-arm rates, a Wald interval for the lift, a
  pooled two-proportion z-test and a sample-ratio-mismatch (SRM) check.
- **Monte Carlo harnesses.** Two harnesses run many simulated experiments under derived
  seeds:
  - the power/coverage validation ("phase 5"), with a per-size summary;
  - the A/A validation.
- **Ship rule.** A final rule turns three analyses into "SHIP" or "DO NOT SHIP".

A DataFrame is a column-major value, `Frame(height, cols)`. A raised `KeyError` or
`ValueError` is an `Err` of the `Result` type, and pandas' NaN is `None`.

Some things are parameters of the model, fixed only by the facts stated about them:

- the numeric library (square root, exponential, logarithm, normal CDF and quantile,
  chi-square test), in a `Numerics` record;
- MD5 of `str(user_id)`;
- every random generator, keyed by the seed the code gives it, in an `Environment` record.

The code works in three styles, and so does the model:

- Pure code becomes functions and lemmas.
- Code that writes columns step by step (`simulate_signup`, `simulate_purchase`) becomes
  methods, each proved equal to a specification function.
- Code that appends to a list in a loop (`run_phase5`, `run_aa_simulation`) also becomes
  methods proved equal to a specification function.

Both loops have first-error semantics: the first run that raises ends the loop. This is
the `Frames.Collect` function.

Modules and files:

| file | module | models |
|---|---|---|
| frames.dfy | Frames | DataFrame values, masks, row filtering, errors, first-error loops |
| numeric.dfy | Numeric | the numeric library as parameters; `np.clip`, the logistic function |
| config.dfy | Configuration | `ExperimentConfig` and replacing its seed |
| assignment.dfy | Assignment | `assign_variant`, `assign_variants` |
| analysis.dfy | Analysis | `compute_group_stats`, `estimate_lift`, `test_lift`, `check_srm`, `run_ab_analysis` |
| simulate.dfy | Simulate | `generate_users`, `simulate_signup`, `simulate_purchase`, `run_experiment` |
| power_validation.dfy | PowerValidation | `run_one_sim`, `run_phase5` |
| aa_test.dfy | AaTest | `run_aa_once`, `run_aa_simulation` |
| decision.dfy | Decision | the verdict of `decision_clean` |

One behaviour of `simulate_signup` is modelled exactly as the code has it.
- The code first writes `p_signup` with a lift that decays by day of exposure.
- It then overwrites that column with the constant-lift value.
- So `novelty_decay_k` has no effect on the result (`Simulate.DecayRateIgnored`).
- The configuration's default `novelty_decay_k` is 0.0. At that value the decayed and the
  constant lifts agree anyway (`Simulate.DecayVanishesAtZero`).

## Model

| member | source | states |
|---|---|---|
| Frames.Frame.WithColumn | src/simulate.py:30 | `df[name] = values` gives a frame with the same rows, the column set plus `name`, `name` holding the values and every other column unchanged |
| Frames.OverwriteColumn | src/simulate.py:64-73 | writing a column and then writing it again is the same as only the second write |
| Frames.CountTrue | src/analysis.py:35-36 | `len(df[mask])`, the number of true entries of a mask, is at most the number of rows |
| Frames.CountTrueIsCardinality | src/analysis.py:35-36 | the length of `df[mask]` is the number of positions the mask selects |
| Frames.CountTrueComplement | src/analysis.py:32-36 | a mask and its negation together count every row |
| Frames.CountTrueZero | src/analysis.py:37 | a mask counts nothing exactly when no entry of it is true |
| Frames.EqualsOne | src/decision.py:16 | `column == 1` is true exactly on the cells equal to 1 |
| Frames.RankIncreasing | src/decision.py:16 | of two selected rows, the earlier one comes first among the kept rows |
| Frames.Rank | src/decision.py:16 | the position a selected row takes in `col[mask]`, the number of selected rows before it, is below the length of `col[mask]` |
| Frames.Select | src/decision.py:16 | `col[mask]`, the entries of the selected rows, has one entry per selected row; its contents are stated by SelectAt and SelectFrom |
| Frames.SelectAt | src/decision.py:16 | `col[mask]` keeps every selected row i, at position `Rank(m, i)` |
| Frames.SelectFrom | src/decision.py:16 | entry j of `col[mask]` is the entry of the selected row whose rank is j |
| Frames.FilterRows | src/decision.py:16 | `df[mask]` keeps every column, as many rows as the mask selects, and each column as the selection `col[mask]` |
| Frames.FilterRowsKeeps | src/decision.py:16 | `df[mask]` holds exactly the selected rows with all their cells: row i at its rank, and every kept cell that of the selected row of that rank |
| Frames.Collect | src/AATest.py:27-31 | a loop that appends one result per step yields, when it completes, one value per step |
| Frames.CollectRows | src/AATest.py:27-32 | the loop completes exactly when every step does, and then value j is step j's value |
| Frames.CollectStopsAtError | src/power_validation.py:46-50 | once a step has raised, later steps change nothing |
| Frames.CollectFirstError | src/power_validation.py:46-50 | when the steps before p go through and step p raises, the loop raises step p's error |
| Numeric.Clip | src/simulate.py:64-73 | `np.clip(x, lo, hi)` lies in [lo, hi], is x inside the range and the nearer bound outside |
| Numeric.Sigmoid | src/simulate.py:22-23 | the logistic function yields a probability strictly between 0 and 1 |
| Configuration.WithSeed | src/power_validation.py:49 | the rebuilt configuration has the new seed and every other field of the original |
| Assignment.Pow16Prefix | src/assignment.py:5 | 16^8 is 2^32 |
| Assignment.HexValue | src/assignment.py:5 | `int(s, 16)` of s hex digits is below 16^\|s\| |
| Assignment.HexRoundTrip | src/assignment.py:5 | reading back the rendering of a number gives the number |
| Assignment.HexRoundTripBack | src/assignment.py:5 | rendering the value of a hex string gives the string: `int(_, 16)` loses nothing |
| Assignment.Bucket | src/assignment.py:5 | the bucket lies in [0, 1) |
| Assignment.BucketReachesGrid | src/assignment.py:5 | every point k / 2^32 of [0, 1) is the bucket of some digest |
| Assignment.AssignVariant | src/assignment.py:3-6 | the arm is "A" or "B", and "A" exactly when the bucket is below the split |
| Assignment.ExtremeSplits | src/assignment.py:5-6 | a split of 1 or more always gives "A"; a split of 0 or less always gives "B" |
| Assignment.MonotoneInSplit | src/assignment.py:6 | a user in "A" at split s stays in "A" at every larger split |
| Assignment.AssignVariants | src/assignment.py:8-11 | raises KeyError exactly without `user_id`; otherwise keeps rows and columns and adds `variant[i] = assign_variant(user_id[i], split)` |
| Assignment.SameUserSameArm | src/assignment.py:3-11 | two rows with the same user id get the same arm |
| Analysis.LabelMask | src/analysis.py:32-33 | the mask is true exactly on rows labelled with the arm |
| Analysis.CountLabelled | src/analysis.py:35-36 | counting the mask counts exactly the labelled rows |
| Analysis.MaskedSumBounds | src/analysis.py:40-41 | `MaskedSum`, the model of `df[mask][outcome_col].sum()`: on a 0/1 outcome, an arm's conversions lie between 0 and its size |
| Analysis.RateInUnit | src/analysis.py:43-44 | conversions over size is a rate in [0, 1] |
| Analysis.MaskedSumCountsConverted | src/analysis.py:40-41 | on a 0/1 outcome, `outcome[mask].sum()` is the number of selected rows whose outcome is 1 |
| Analysis.MaskedSumZero | src/analysis.py:40-41 | on a 0/1 outcome, the masked sum is 0 exactly when every selected outcome is 0 |
| Analysis.MaskedSumFull | src/analysis.py:40-41 | on a 0/1 outcome, the masked sum equals the mask's count exactly when every selected outcome is 1 |
| Analysis.ComputeGroupStats | src/analysis.py:18-46 | KeyError exactly when a column is missing, ValueError exactly when an arm is empty; n_A, n_B count the labelled rows; conv_A, conv_B are the outcome sums over each arm's rows; rates are conversions over sizes and lie in [0, 1] for 0/1 outcomes |
| Analysis.ConversionsCountConverted | src/analysis.py:32-41 | on a 0/1 outcome, conv_A and conv_B are the numbers of rows of each arm whose outcome is 1 |
| Analysis.OtherLabelsCountTowardNeither | src/analysis.py:32-36 | n_A, n_B and the rows with any other label make up all rows |
| Analysis.EstimateLift | src/analysis.py:48-72 | lift is p_B - p_A, the interval is symmetric about it with half-width zcrit * se, se is the square root of `UnpooledVariance`, p_A(1 - p_A)/n_A + p_B(1 - p_B)/n_B of lines 56-59, conf_level is 1 - alpha |
| Analysis.IntervalContainsLift | src/analysis.py:53-63 | for a level in (0, 1], se is non-negative and ci_low <= lift <= ci_high |
| Analysis.PooledBetween | src/analysis.py:86 | `PooledRate`, (conv_A + conv_B)/(n_A + n_B), lies in [0, 1] and between p_A and p_B |
| Analysis.TestLift | src/analysis.py:74-110 | raises exactly when the pooled SE `PooledSe`, the square root of `PooledVariance` (lines 86-87), is 0 (checked first) or the alternative is unknown; z * se0 is the lift; the pooled rate is reported; the p-value is 1 - Φ(z) for "greater", Φ(z) for "less" and 2 (1 - Φ(\|z\|)) for the two-sided spellings |
| Analysis.PooledVarianceZero | src/analysis.py:86-87 | `PooledVariance`, p(1 - p)(1/n_A + 1/n_B) at the pooled rate, is non-negative, and zero exactly when the pooled rate is 0 or 1 |
| Analysis.DegenerateExactlyWhenConstant | src/analysis.py:86-90 | the test raises for zero variance exactly when the pooled rate is 0 or 1, that is, when no conversion or every row converted in both arms |
| Analysis.DegenerateExactlyWhenOutcomeConstant | src/analysis.py:86-90 | on a 0/1 outcome, the test raises for zero variance exactly when the outcome cells of the rows of both arms are all 0 or all 1 |
| Analysis.ZHasSignOfLift | src/analysis.py:92 | z is positive, negative or zero exactly as the lift is |
| Analysis.OneSidedPValuesComplement | src/analysis.py:94-97 | the "greater" and "less" p-values sum to 1 |
| Analysis.TwoSidedSpellingsAgree | src/analysis.py:98-101 | the three two-sided spellings give the same test; any other unknown alternative raises |
| Analysis.PValueIsProbability | src/analysis.py:94-99 | every p-value lies in [0, 1] |
| Analysis.SmallGreaterPValueNeedsPositiveLift | src/analysis.py:92-95 | a one-sided "greater" p-value below 1/2 needs a positive lift |
| Analysis.CheckSrm | src/analysis.py:112-143 | raises exactly when the group column is missing or no row has either label; counts the labelled rows; the expected counts are the total times each share of the split; chi2 and the p-value are the chi-square test of observed against expected; passes exactly when the p-value is at least 0.05 |
| Analysis.ExpectedCountsShareTotal | src/analysis.py:130-131 | with a split summing to 1 the expected counts add up to n_A + n_B |
| Analysis.SrmPValueIsProbability | src/analysis.py:133 | the SRM p-value lies in [0, 1] |
| Analysis.RunAbAnalysis | src/analysis.py:146-160 | the group stats' error, then the test's error, propagate in that order; otherwise the bundle holds the stats, the 95% interval, the "greater" test, and the SRM check of `variant` with labels A, B at split (0.5, 0.5) on the same frame, whose counts are the stats' n_A, n_B |
| Analysis.AnalysisFacts | src/analysis.py:146-160 | on a 0/1 outcome the bundle's interval holds the lift, its p-value is a probability, and a p-value below 1/2 means a positive lift |
| Simulate.DefaultRunnable | src/config.py:3-14 | the record's default values form a configuration the simulator can run, with no novelty decay |
| Simulate.Bernoulli | src/simulate.py:75 | `binomial(1, p)` is 0 or 1, always 0 for p <= 0 and always 1 for p >= 1 |
| Simulate.GenerateUsers | src/simulate.py:7-20 | n rows, the four columns, ids 1..n in order, is_new 0 or 1 |
| Simulate.AssignedColumn | src/simulate.py:30 | assigned_B is 1 exactly on rows whose variant is "B" |
| Simulate.ExposedColumn | src/simulate.py:33-36 | exposed_B is 1 exactly when assigned to B and the uniform draw is below the compliance rate |
| Simulate.BaseColumn | src/simulate.py:40-50 | the base signup probability of every row lies strictly between 0 and 1 |
| Simulate.SignupProb | src/simulate.py:70-73 | the signup probability lies in [0, 1] |
| Simulate.SignupProbColumn | src/simulate.py:64-73 | row by row, the clipped base probability plus the exposed lift |
| Simulate.DecayedLift | src/simulate.py:59-61 | row by row, lift0 * exp(-k * day) |
| Simulate.BernoulliColumn | src/simulate.py:75 | row by row, the 0/1 draw from the row's probability |
| Simulate.MissingSignupInput | src/simulate.py:30-47 | the first of variant, is_new, device, channel that is missing, in reading order |
| Simulate.SignupColumnsOf | src/simulate.py:25-75 | every column written has one cell per user |
| Simulate.WriteSignup | src/simulate.py:26-75 | adds the six columns written, with their final contents, and leaves every other column unchanged |
| Simulate.SignupFrame | src/simulate.py:25-76 | KeyError for the first missing input column; otherwise the users with the six final columns |
| Simulate.SimulateSignup | src/simulate.py:25-76 | the column-by-column writes, including the overwritten `p_signup`, end in `SignupFrame` |
| Simulate.SignupRows | src/simulate.py:30-75 | per row: assigned iff "B"; exposed iff "B" and draw below compliance; base is the sigmoid of the row's covariate log-odds `Logit` (lines 40-48), in (0, 1); p_signup in [0, 1], equal to the base when unexposed, base plus the constant lift clipped when exposed; day in [0, days); signed_up 0/1 and 1 iff the draw is below p_signup |
| Simulate.ComplianceExtremes | src/simulate.py:33-36 | compliance 1 exposes every B row; compliance 0 exposes none |
| Simulate.DecayRateIgnored | src/simulate.py:59-73 | the frame does not depend on novelty_decay_k, because the decayed p_signup is overwritten |
| Simulate.DecayVanishesAtZero | src/simulate.py:60-61 | with k = 0 the decayed lift is the constant lift |
| Simulate.PurchaseProbColumn | src/simulate.py:84-90 | row by row, clip(base + 0.03 returning - 0.02 social, 0, 1) |
| Simulate.PurchasedAt | src/simulate.py:91-93 | a row's purchase is 0 or 1: 0 off the mask, and on the mask the Bernoulli outcome of the draw at the row's rank among the selected rows |
| Simulate.PurchasedColumn | src/simulate.py:91-93 | the scattered column, row by row |
| Simulate.MissingPurchaseInput | src/simulate.py:84-92 | the first of is_new, channel, signed_up that is missing, in reading order |
| Simulate.PurchaseFrame | src/simulate.py:79-94 | KeyError for the first missing input; otherwise same rows, two columns added, every other column unchanged |
| Simulate.ScatterPurchases | src/simulate.py:91-93 | the masked `.loc` write loop gives the k-th draw to the k-th selected row and 0 elsewhere |
| Simulate.SimulatePurchase | src/simulate.py:79-94 | the column writes end in `PurchaseFrame` |
| Simulate.PurchaseRows | src/simulate.py:84-93 | the probability column is the clipped per-user rate of lines 84-90, in [0, 1]; purchased is 0/1, 0 unless signed_up is 1, and on a signed-up row 1 exactly when the draw at its rank among the signed-up rows is below its probability |
| Simulate.RunExperiment | src/simulate.py:96-105 | n rows with the id, variant, signup and purchase columns |
| Simulate.ExperimentArm | src/simulate.py:96-98 | row i has id i + 1 and the arm hashed from it |
| Simulate.ExperimentOutcomes | src/simulate.py:99-104 | per row: signup and purchase 0/1, and no purchase without a signup |
| Simulate.SignupsBinary | src/simulate.py:75 | the signup column is a 0/1 outcome |
| PowerValidation.RunOneSim | src/power_validation.py:8-29 | copies the lift, interval, p-value and SRM verdict from the analysis and propagates its error; reject iff p < alpha; covers iff ci_low <= true lift <= ci_high; width is ci_high - ci_low |
| PowerValidation.SimRowFacts | src/power_validation.py:12-24 | width non-negative, the estimate inside the interval, p in [0, 1], rejection at a level up to 1/2 only for a positive estimate |
| PowerValidation.DistinctSeeds | src/power_validation.py:46-49 | with run indices below 10 000, distinct (size, index) pairs get distinct seeds |
| PowerValidation.SeedsCollideBeyondStride | src/power_validation.py:49 | run 10 000 at size n shares its seed with run 0 at size n + 1 |
| PowerValidation.Trials | src/power_validation.py:47 | the runs at one size in index order |
| PowerValidation.PlanLength | src/power_validation.py:46-47 | `Plan`, the (size, index) pairs the nested loops visit in order, has \|grid\| * n_sims runs |
| PowerValidation.PlanAppend | src/power_validation.py:46 | the runs of two grids in turn are the runs of their concatenation |
| PowerValidation.PlanSplit | src/power_validation.py:46-47 | the runs of size g follow those of the sizes before it and precede the rest |
| PowerValidation.PlanAfter | src/power_validation.py:46-47 | run i of size g comes right after the runs of the earlier sizes, plus i |
| PowerValidation.PlanAt | src/power_validation.py:46-47 | run i of size g is at position g * n_sims + i |
| PowerValidation.TrialConfig | src/power_validation.py:49 | a run's configuration is the base one with seed `TrialSeed`, base + 10 000 * size + index, the seed expression of line 49 |
| PowerValidation.Simulator | src/power_validation.py:50 | the routine each run calls is `run_one_sim` at the given true lift and level |
| PowerValidation.Outcomes | src/power_validation.py:46-50 | one outcome per planned run |
| PowerValidation.OutcomeAfter | src/power_validation.py:46-50 | the outcome after the earlier sizes' runs, plus i, is run i of size g under its own seed |
| PowerValidation.InsertSorted | src/power_validation.py:55 | inserting a key keeps the keys strictly increasing and adds exactly that key |
| PowerValidation.Sizes | src/power_validation.py:55 | the groupby keys are strictly increasing and are exactly the sizes that were run |
| PowerValidation.Group | src/power_validation.py:55 | a group holds only rows of its size, and is non-empty exactly when that size was run |
| PowerValidation.GroupIsSelection | src/power_validation.py:55 | a group is the row selection `raw[raw.n_users == n]` |
| PowerValidation.GroupComplete | src/power_validation.py:55-63 | a group holds every run of its size and only those, in run order: as many rows as such runs, run i at its rank |
| PowerValidation.Share | src/power_validation.py:57 | the mean of a boolean column lies in [0, 1] |
| PowerValidation.ShareExtremes | src/power_validation.py:57 | the mean is 0 exactly when no entry is true, 1 exactly when all are |
| PowerValidation.SampleStd | src/power_validation.py:59 | the sample standard deviation is NaN exactly below two rows, otherwise non-negative |
| PowerValidation.SummarizeGroup | src/power_validation.py:56-63 | power, coverage and SRM pass rate are the numbers of rejecting, covering and SRM-passing runs over the group size, in [0, 1]; mean_lift and mean_ci_width are the sums of the estimates and widths over the group size; std_lift is NaN exactly for one run and otherwise the square root of the squared deviations from mean_lift over size - 1 |
| PowerValidation.SummaryRatesCountRuns | src/power_validation.py:56-63 | power, coverage and SRM pass rate are the cardinalities of the sets of rejecting, covering and SRM-passing runs over the group size |
| PowerValidation.SummaryOrder | src/power_validation.py:54-65 | `Summarize`, the groupby and aggregation of lines 54-65, has one summary line per size run, in strictly increasing order of size |
| PowerValidation.SummaryLine | src/power_validation.py:56-63 | each line aggregates the non-empty group of its size, with rates in [0, 1] |
| PowerValidation.SummaryCoversSizes | src/power_validation.py:54-55 | a size has a summary line exactly when some run had that size |
| PowerValidation.Phase5Runs | src/power_validation.py:45-55 | a completed phase has at least one row |
| PowerValidation.Phase5NeedsRuns | src/power_validation.py:52-55 | an empty grid or zero runs per size raises KeyError on `n_users` |
| PowerValidation.Phase5Row | src/power_validation.py:45-52 | a completed phase has \|grid\| * n_sims rows; row g * n_sims + i is run i of size g under its own seed |
| PowerValidation.Phase5RunsOneSimEach | src/power_validation.py:46-50 | that row is `run_one_sim` at size g under seed base + 10 000 * size + i |
| PowerValidation.SizeBlock | src/power_validation.py:47-50 | the runs of size g occupy the next n_sims outcomes, in index order |
| PowerValidation.RunSize | src/power_validation.py:47-50 | the inner loop appends the runs of one size, or raises the first run's error |
| PowerValidation.RunGrid | src/power_validation.py:45-52 | the nested loops give exactly `Phase5Runs` |
| PowerValidation.RunPhase5 | src/power_validation.py:32-67 | the whole phase gives exactly `Phase5Result`, the function of lines 32-67: the first error of the runs, KeyError on n_users when nothing ran, or the raw rows and their summary |
| AaTest.RunAaOnce | src/AATest.py:9-19 | copies p-value, interval and SRM verdict from the analysis and propagates its error; reject iff p < 0.05; ci_excludes_zero iff ci_low > 0 or ci_high < 0 |
| AaTest.AaRowFacts | src/AATest.py:13-17 | p in [0, 1]; ci_low <= ci_high; the interval excludes zero exactly when zero is outside it; a rejection only when ci_high > 0 |
| AaTest.AaRunner | src/AATest.py:31 | the routine each run calls is `run_aa_once` |
| AaTest.RunConfig | src/AATest.py:30 | run i's configuration is the given one with seed cfg.seed + i |
| AaTest.AaOutcomes | src/AATest.py:28-31 | one outcome per run |
| AaTest.RunAaLoop | src/AATest.py:27-32 | the loop collects the runs in order, raising the first error |
| AaTest.RunAaSimulation | src/AATest.py:22-32 | the whole simulation gives exactly `AaSimulationResult`, the function of lines 22-32: the first-error loop over the runs |
| AaTest.AaLoopRows | src/AATest.py:27-32 | the loop completes exactly when every run does, and row i is run i's |
| AaTest.AaSimulationRow | src/AATest.py:27-32 | a completed simulation has n_sims rows, row i being `run_aa_once` under seed cfg.seed + i |
| AaTest.AaLoopFirstError | src/AATest.py:28-31 | the first run that raises decides the error |
| Decision.SignedUpRows | src/decision.py:16 | KeyError exactly without `signed_up`; otherwise the row filter `df[df.signed_up == 1]`, with one row per cell equal to 1 |
| Decision.GuardrailRowsSignedUp | src/decision.py:16-17 | the guardrail frame holds exactly the signed-up users' rows: one row per user whose `signed_up` is 1, each with all its cells at its rank, and every kept row signed up |
| Decision.Decide | src/decision.py:25-46 | significance, practicality, primary, guardrail and "SHIP" iff primary and guardrail |
| Decision.DecisionClean | src/decision.py:11-46 | the three analyses in source order, the first error propagating; the guardrail on the signed-up rows; then the verdict |
| Decision.PracticalImpliesSignificant | src/decision.py:30-32 | with a non-negative threshold, practical implies significant, so primary is SRM and practical |
| Decision.NegativeThresholdDefersToSignificance | src/decision.py:30-32 | with a negative threshold, primary is SRM and significance |
| Decision.StricterThresholdNeverShipsMore | src/decision.py:31-43 | raising the threshold never turns "DO NOT SHIP" into "SHIP" |
| Decision.PurchaseDoesNotDecide | src/decision.py:14-43 | the all-users purchase analysis does not affect the decision |
| Decision.ShipMeansLargeLift | src/decision.py:28-43 | on 0/1 signups, "SHIP" means the estimated signup lift is positive and above the threshold, SRM passed, and the guardrail interval reaches 0 or above |

## Left out

- Floating point: reals are exact. `np.sqrt`, `np.exp`, `np.log`, `stats.norm.cdf`, `stats.norm.ppf` and `stats.chisquare` are parameters. The model uses only the facts listed in `Numerics.Sound` (ranges, signs, sqrt zero only at zero, the normal CDF on either side of 0, the ppf above 1/2 non-negative).
- MD5 is a parameter: the hex digest of `str(user_id)`, assumed to be 32 lower-case hex digits.
- Random generators are parameters keyed by the seed the code passes (`seed`, `seed + 999`, `seed + 1`, and the per-trial seeds). The model does not capture what `default_rng`, `binomial`, `choice`, `integers` and `uniform` compute.
- `generate_users` and `simulate_signup` both start a generator from the same seed. The model does not capture that their streams coincide: their draws are two independent parameters.
- `binomial(1, p)` is modelled as a uniform draw u in [0, 1) with the result 1 when u < p.
- Statistical claims (false-positive rate near 5%, coverage near 95%, power growing with the sample size) are properties of distributions and are not stated.
- Outcome cells that are not integers count as 0 in `Analysis.MaskedSum`. The guarantees on rates assume 0/1 outcomes (`Frames.Binary`), as the code's docstring does.
- Assignment.AssignVariants: requires integer `user_id` cells. The code's `int(x)` on other cells (floats, numeric strings) is not modelled.
- Simulate.SignupFrame, Simulate.RunExperiment: require `Runnable`, a baseline rate strictly inside (0, 1) and at least one experiment day. Outside that range the source behaves as follows, and the model does not follow these paths: at a rate of 1 the division `cvr / (1 - cvr)` at src/simulate.py:40 raises ZeroDivisionError; at a rate of 0 the log-odds is −inf; below 0 or above 1 the ratio is negative and `np.log` gives NaN; with experiment_days ≤ 0, `integers(0, D)` at src/simulate.py:57 raises ValueError.
- PowerValidation.RunPhase5: sizes and run counts are natural numbers. Negative sizes, for which numpy raises, are not modelled.
- `stats.chisquare`'s own check that observed and expected totals agree is not modelled; the expected counts sum to the total by `Analysis.ExpectedCountsShareTotal`.
- The pandas aggregation `std` is modelled as the sample standard deviation over the group. pandas' handling of NaN in the input columns is not modelled, since every simulated row is a number.
- The formatted strings and the fixed notes of `decision_clean` (`_fmt_pct`, `_fmt_pp`), and `print_decision`, are presentation and are left out.
- src/compliance.py is a driver script and is not part of this model.
- Some lemmas here hold by unfolding definitions alone: the extreme splits, monotonicity in the split, the seed properties and the decision lemmas.
