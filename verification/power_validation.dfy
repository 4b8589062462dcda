/** Phase 5 power validation: repeated simulated experiments at several sample sizes,
    one row per experiment, and a summary per sample size. */
module PowerValidation {
  import opened Frames
  import opened Numeric
  import opened Configuration
  import opened Simulate
  import opened Analysis

  /** What `run_one_sim` reports about one simulated experiment. */
  datatype SimRow = SimRow(
    nUsers: nat, liftHat: real, ciLow: real, ciHigh: real, ciWidth: real,
    pValue: real, reject: bool, covers: bool, srmPasses: bool)

  /** `run_one_sim`: simulate, analyse the signups, and score the run against the true
      lift. The interval is the analysis' 95% one; `alpha` only sets the rejection. */
  function RunOneSim(n: nat, cfg: ExperimentConfig, trueLift: real, alpha: real, env: Environment)
    : (r: Result<SimRow>)
    requires env.Sound() && Runnable(cfg)
    ensures var a := RunAbAnalysis(RunExperiment(n, cfg, env), "signed_up", env.num);
            && (r.Err? <==> a.Err?)
            && (r.Err? ==> r.error == a.error)
            && (r.Ok? ==> && r.value.nUsers == n
                          && r.value.liftHat == a.value.liftCi.lift
                          && r.value.ciLow == a.value.liftCi.ciLow
                          && r.value.ciHigh == a.value.liftCi.ciHigh
                          && r.value.pValue == a.value.test.pValue
                          && r.value.srmPasses == a.value.srm.passes)
    ensures r.Ok? ==> && (r.value.reject <==> r.value.pValue < alpha)
                      && (r.value.covers <==> r.value.ciLow <= trueLift <= r.value.ciHigh)
                      && r.value.ciWidth == r.value.ciHigh - r.value.ciLow
  {
    var a := RunAbAnalysis(RunExperiment(n, cfg, env), "signed_up", env.num);
    if a.Err? then Err(a.error)
    else
      var ci := a.value.liftCi;
      var p := a.value.test.pValue;
      Ok(SimRow(n, ci.lift, ci.ciLow, ci.ciHigh, ci.ciHigh - ci.ciLow, p,
                p < alpha, ci.ciLow <= trueLift && trueLift <= ci.ciHigh, a.value.srm.passes))
  }

  /** What a simulated row can be relied on for: a non-negative interval width, an
      interval that holds the estimate (so it covers a true lift equal to the estimate),
      a p-value that is a probability, and rejection at a level up to 0.5 only for a
      positive estimated lift. */
  lemma SimRowFacts(n: nat, cfg: ExperimentConfig, trueLift: real, alpha: real, env: Environment)
    requires env.Sound() && Runnable(cfg) && RunOneSim(n, cfg, trueLift, alpha, env).Ok?
    ensures var row := RunOneSim(n, cfg, trueLift, alpha, env).value;
            && row.ciWidth >= 0.0
            && row.ciLow <= row.liftHat <= row.ciHigh
            && (trueLift == row.liftHat ==> row.covers)
            && 0.0 <= row.pValue <= 1.0
            && (row.reject && alpha <= 0.5 ==> row.liftHat > 0.0)
  {
    var df := RunExperiment(n, cfg, env);
    SignupsBinary(n, cfg, env);
    AnalysisFacts(df, "signed_up", env.num);
  }

  // ---------------------------------------------------------------- seeds and the plan

  /** Seeds of different sample sizes lie this far apart. */
  const SeedStride: int := 10000

  /** `cfg_base.seed + 10_000 * n_users + i`: the seed of the i-th run at size n. */
  function TrialSeed(base: int, n: int, i: int): int {
    base + SeedStride * n + i
  }

  /** Runs fewer than the stride apart never share a seed: with at most 10 000 runs per
      size, every (size, run) pair gets a seed of its own. */
  lemma DistinctSeeds(base: int, n: int, i: int, n': int, i': int)
    requires 0 <= i < SeedStride && 0 <= i' < SeedStride
    requires TrialSeed(base, n, i) == TrialSeed(base, n', i')
    ensures n == n' && i == i'
  {
  }

  /** Past the stride the seeds collide: run 10 000 at size n reuses the seed of run 0 at
      size n + 1. */
  lemma SeedsCollideBeyondStride(base: int, n: int)
    ensures TrialSeed(base, n, SeedStride) == TrialSeed(base, n + 1, 0)
  {
  }

  /** One planned run: the sample size and the run index at that size. */
  datatype Trial = Trial(nUsers: nat, index: nat)

  /** The runs at one size, in index order. */
  function Trials(n: nat, count: nat): (t: seq<Trial>)
    ensures |t| == count && forall i :: 0 <= i < count ==> t[i] == Trial(n, i)
  {
    seq(count, i requires 0 <= i < count => Trial(n, i))
  }

  /** The nested loops' order: every size of the grid in turn, all its runs in index order. */
  function Plan(grid: seq<nat>, nSims: nat): seq<Trial> {
    if grid == [] then [] else Plan(grid[..|grid| - 1], nSims) + Trials(grid[|grid| - 1], nSims)
  }

  lemma MultiplyOut(k: nat, m: nat)
    ensures k * m + m == (k + 1) * m
  {
  }

  /** The plan has |grid| * nSims runs. */
  lemma {:induction false} PlanLength(grid: seq<nat>, nSims: nat)
    ensures |Plan(grid, nSims)| == |grid| * nSims
  {
    if grid != [] {
      PlanLength(grid[..|grid| - 1], nSims);
      MultiplyOut(|grid| - 1, nSims);
    }
  }

  /** Run i of the g-th size follows the runs of the sizes before it. */
  lemma PlanAfter(grid: seq<nat>, nSims: nat, g: nat, i: nat)
    requires g < |grid| && i < nSims
    ensures |Plan(grid[..g], nSims)| + i < |Plan(grid, nSims)|
    ensures Plan(grid, nSims)[|Plan(grid[..g], nSims)| + i] == Trial(grid[g], i)
  {
    PlanSplit(grid, g, nSims);
  }

  /** Where run i of the g-th size sits in the order of the nested loops. */
  function RunPosition(g: nat, nSims: nat, i: nat): nat {
    g * nSims + i
  }

  /** Run i of the g-th size of the grid sits at position g * nSims + i of the plan. */
  lemma PlanAt(grid: seq<nat>, nSims: nat, g: nat, i: nat)
    requires g < |grid| && i < nSims
    ensures g * nSims + i < |Plan(grid, nSims)| && Plan(grid, nSims)[g * nSims + i] == Trial(grid[g], i)
  {
    PlanAfter(grid, nSims, g, i);
    PlanLength(grid[..g], nSims);
  }

  /** The configuration of one planned run: the base one with the run's seed. */
  function TrialConfig(cfgBase: ExperimentConfig, t: Trial): (cfg: ExperimentConfig)
    ensures cfg.seed == TrialSeed(cfgBase.seed, t.nUsers, t.index) && cfg.(seed := cfgBase.seed) == cfgBase
    ensures Runnable(cfgBase) ==> Runnable(cfg)
  {
    WithSeed(cfgBase, TrialSeed(cfgBase.seed, t.nUsers, t.index))
  }

  /** `run_one_sim` at a fixed true lift and level, as a routine: the one `run_phase5` calls. */
  function Simulator(trueLift: real, alpha: real, env: Environment): (sim: Runner<SimRow>)
    requires env.Sound()
    ensures Accepts(sim)
    ensures forall n, cfg :: Runnable(cfg) ==> sim(n, cfg) == RunOneSim(n, cfg, trueLift, alpha, env)
  {
    (n: nat, cfg: ExperimentConfig) requires env.Sound() && Runnable(cfg) => RunOneSim(n, cfg, trueLift, alpha, env)
  }

  /** What each run of a plan raises or returns, position by position. */
  function Outcomes(plan: seq<Trial>, cfgBase: ExperimentConfig, sim: Runner<SimRow>): (o: seq<Result<SimRow>>)
    requires Runnable(cfgBase) && Accepts(sim)
    ensures |o| == |plan|
  {
    seq(|plan|, j requires 0 <= j < |plan| => sim(plan[j].nUsers, TrialConfig(cfgBase, plan[j])))
  }

  /** The outcome that follows the runs of the first g sizes, plus i, is run i at the g-th
      size, under the seed of that pair. */
  lemma OutcomeAfter(grid: seq<nat>, nSims: nat, g: nat, i: nat, cfgBase: ExperimentConfig, sim: Runner<SimRow>)
    requires Runnable(cfgBase) && Accepts(sim) && g < |grid| && i < nSims
    ensures |Plan(grid[..g], nSims)| + i < |Plan(grid, nSims)|
    ensures Outcomes(Plan(grid, nSims), cfgBase, sim)[|Plan(grid[..g], nSims)| + i]
            == sim(grid[g], WithSeed(cfgBase, TrialSeed(cfgBase.seed, grid[g], i)))
  {
    PlanAfter(grid, nSims, g, i);
    var p := |Plan(grid[..g], nSims)| + i;
    assert Outcomes(Plan(grid, nSims), cfgBase, sim)[p]
           == sim(grid[g], TrialConfig(cfgBase, Plan(grid, nSims)[p]));
  }

  // ---------------------------------------------------------------- the summary

  predicate StrictlyIncreasing(xs: seq<nat>) {
    forall i, j :: 0 <= i < j < |xs| ==> xs[i] < xs[j]
  }

  /** Puts x into its place in a strictly increasing sequence, unless it is there already. */
  function InsertSorted(xs: seq<nat>, x: nat): (r: seq<nat>)
    requires StrictlyIncreasing(xs)
    ensures StrictlyIncreasing(r)
    ensures forall y :: y in r <==> y in xs || y == x
  {
    if xs == [] then [x]
    else if x < xs[0] then [x] + xs
    else if x == xs[0] then xs
    else
      var tail := InsertSorted(xs[1..], x);
      assert forall j :: 0 <= j < |tail| ==> xs[0] < tail[j] by {
        forall j | 0 <= j < |tail| ensures xs[0] < tail[j] {
          assert tail[j] in tail;
          if tail[j] in xs[1..] {
            var k :| 0 <= k < |xs[1..]| && xs[1..][k] == tail[j];
            assert xs[k + 1] == tail[j];
          }
        }
      }
      assert forall y :: y in xs <==> y == xs[0] || y in xs[1..] by {
        assert xs == [xs[0]] + xs[1..];
      }
      [xs[0]] + tail
  }

  /** Whether some row of the raw results was run at size n. */
  predicate HasSize(raw: seq<SimRow>, n: nat) {
    exists i :: 0 <= i < |raw| && raw[i].nUsers == n
  }

  /** The groupby keys: each size of the raw results once, in increasing order. */
  function Sizes(raw: seq<SimRow>): (keys: seq<nat>)
    ensures StrictlyIncreasing(keys)
    ensures forall n :: n in keys <==> HasSize(raw, n)
  {
    if raw == [] then []
    else
      var prefix := raw[..|raw| - 1];
      var keys := InsertSorted(Sizes(prefix), raw[|raw| - 1].nUsers);
      assert forall n :: HasSize(raw, n) <==> HasSize(prefix, n) || n == raw[|raw| - 1].nUsers by {
        forall n ensures HasSize(raw, n) <==> HasSize(prefix, n) || n == raw[|raw| - 1].nUsers {
          if HasSize(raw, n) {
            var i :| 0 <= i < |raw| && raw[i].nUsers == n;
            if i < |raw| - 1 { assert prefix[i] == raw[i]; }
          }
          if HasSize(prefix, n) {
            var i :| 0 <= i < |prefix| && prefix[i].nUsers == n;
            assert raw[i] == prefix[i];
          }
        }
      }
      keys
  }

  /** The rows of one size, in their original order. */
  function Group(raw: seq<SimRow>, n: nat): (g: seq<SimRow>)
    ensures forall j :: 0 <= j < |g| ==> g[j].nUsers == n && g[j] in raw
    ensures |g| > 0 <==> HasSize(raw, n)
  {
    if raw == [] then []
    else
      var prefix := raw[..|raw| - 1];
      var last := raw[|raw| - 1];
      var g := Group(prefix, n) + (if last.nUsers == n then [last] else []);
      assert HasSize(raw, n) <==> HasSize(prefix, n) || last.nUsers == n by {
        if HasSize(raw, n) {
          var i :| 0 <= i < |raw| && raw[i].nUsers == n;
          if i < |raw| - 1 { assert prefix[i] == raw[i]; }
        }
        if HasSize(prefix, n) {
          var i :| 0 <= i < |prefix| && prefix[i].nUsers == n;
          assert raw[i] == prefix[i];
        }
      }
      g
  }

  /** `raw_df["n_users"] == n`, row by row. */
  function SizeMask(raw: seq<SimRow>, n: nat): (m: seq<bool>)
    ensures |m| == |raw| && forall i :: 0 <= i < |raw| ==> (m[i] <==> raw[i].nUsers == n)
  {
    seq(|raw|, i requires 0 <= i < |raw| => raw[i].nUsers == n)
  }

  /** A group is the selection of the rows of its size: `raw[raw.n_users == n]`. */
  lemma {:induction false} GroupIsSelection(raw: seq<SimRow>, n: nat)
    ensures Group(raw, n) == Select(raw, SizeMask(raw, n))
  {
    if raw != [] {
      var prefix := raw[..|raw| - 1];
      GroupIsSelection(prefix, n);
      assert SizeMask(raw, n)[..|raw| - 1] == SizeMask(prefix, n);
    }
  }

  /** A group holds every run of its size and no other, in run order: as many rows as runs
      of that size, run i at position `Rank(SizeMask(raw, n), i)`, each position that of a
      run of size n (`RankIncreasing` gives the order). */
  lemma GroupComplete(raw: seq<SimRow>, n: nat)
    ensures var m := SizeMask(raw, n);
            && |Group(raw, n)| == CountTrue(m) == |set i: nat | i < |raw| && raw[i].nUsers == n|
            && (forall i :: 0 <= i < |raw| && m[i] ==> Group(raw, n)[Rank(m, i)] == raw[i])
            && (forall j :: 0 <= j < |Group(raw, n)| ==> FromSelectedRow(Group(raw, n), raw, m, j))
  {
    var m := SizeMask(raw, n);
    GroupIsSelection(raw, n);
    CountTrueIsCardinality(m);
    assert Selected(m) == set i: nat | i < |raw| && raw[i].nUsers == n;
    forall i | 0 <= i < |raw| && m[i]
      ensures Group(raw, n)[Rank(m, i)] == raw[i]
    {
      SelectAt(raw, m, i);
    }
    forall j | 0 <= j < |Group(raw, n)|
      ensures FromSelectedRow(Group(raw, n), raw, m, j)
    {
      SelectFrom(raw, m, j);
    }
  }

  function Sum(xs: seq<real>): real {
    if xs == [] then 0.0 else Sum(xs[..|xs| - 1]) + xs[|xs| - 1]
  }

  /** The arithmetic mean of a non-empty column. */
  function Mean(xs: seq<real>): real
    requires |xs| > 0
  {
    Sum(xs) / |xs| as real
  }

  /** The mean of a boolean column: the share of true entries, a fraction in [0, 1]. */
  function Share(bs: seq<bool>): (f: real)
    requires |bs| > 0
    ensures 0.0 <= f <= 1.0
  {
    RateInUnit(CountTrue(bs), |bs|);
    CountTrue(bs) as real / |bs| as real
  }

  /** A count over a positive size is 0 exactly for none and 1 exactly for all. */
  lemma RateExtremes(k: nat, n: nat)
    requires k <= n && n > 0
    ensures k as real / n as real == 0.0 <==> k == 0
    ensures k as real / n as real == 1.0 <==> k == n
  {
    RateTimesSize(k, n);
  }

  /** The share is 0 exactly when no entry is true, and 1 exactly when every entry is. */
  lemma ShareExtremes(bs: seq<bool>)
    requires |bs| > 0
    ensures Share(bs) == 0.0 <==> forall i :: 0 <= i < |bs| ==> !bs[i]
    ensures Share(bs) == 1.0 <==> forall i :: 0 <= i < |bs| ==> bs[i]
  {
    var n := |bs|;
    RateExtremes(CountTrue(bs), n);
    CountTrueZero(bs);
    var neg := seq(n, i requires 0 <= i < n => !bs[i]);
    CountTrueComplement(bs, neg);
    CountTrueZero(neg);
  }

  function SquaredDeviations(xs: seq<real>, m: real): (s: real)
    ensures s >= 0.0
  {
    if xs == [] then 0.0
    else SquaredDeviations(xs[..|xs| - 1], m) + Square(xs[|xs| - 1] - m)
  }

  function Square(d: real): (s: real)
    ensures s >= 0.0
  {
    if d >= 0.0 then d * d else (-d) * (-d)
  }

  /** pandas' sample standard deviation (ddof = 1): NaN below two rows. */
  function SampleStd(xs: seq<real>, num: Numerics): (s: Option<real>)
    requires num.Sound()
    ensures s.None? <==> |xs| < 2
    ensures s.Some? ==> s.value >= 0.0
  {
    if |xs| < 2 then None
    else
      var v := SquaredDeviations(xs, Mean(xs)) / (|xs| - 1) as real;
      assert v >= 0.0;
      Some(num.sqrt(v))
  }

  /** One line of the summary: the aggregates of the runs at one size. */
  datatype SummaryRow = SummaryRow(
    nUsers: nat, power: real, meanLift: real, stdLift: Option<real>,
    meanCiWidth: real, coverage: real, srmPassRate: real)

  function Lifts(g: seq<SimRow>): seq<real> { seq(|g|, i requires 0 <= i < |g| => g[i].liftHat) }
  function Widths(g: seq<SimRow>): seq<real> { seq(|g|, i requires 0 <= i < |g| => g[i].ciWidth) }
  function Rejects(g: seq<SimRow>): seq<bool> { seq(|g|, i requires 0 <= i < |g| => g[i].reject) }
  function Covers(g: seq<SimRow>): seq<bool> { seq(|g|, i requires 0 <= i < |g| => g[i].covers) }
  function SrmPasses(g: seq<SimRow>): seq<bool> { seq(|g|, i requires 0 <= i < |g| => g[i].srmPasses) }

  /** The aggregates of one non-empty group: power, coverage and SRM pass rate are the
      shares of rejecting, covering and SRM-passing runs, mean_lift and mean_ci_width the
      averages of the estimates and the widths, and std_lift the sample spread of the
      estimates about their mean, NaN for a single run. */
  function SummarizeGroup(n: nat, g: seq<SimRow>, num: Numerics): (s: SummaryRow)
    requires num.Sound() && |g| > 0
    ensures s.nUsers == n
    ensures 0.0 <= s.power <= 1.0 && 0.0 <= s.coverage <= 1.0 && 0.0 <= s.srmPassRate <= 1.0
    ensures s.power == CountTrue(Rejects(g)) as real / |g| as real
    ensures s.coverage == CountTrue(Covers(g)) as real / |g| as real
    ensures s.srmPassRate == CountTrue(SrmPasses(g)) as real / |g| as real
    ensures s.meanLift == Sum(Lifts(g)) / |g| as real
    ensures s.meanCiWidth == Sum(Widths(g)) / |g| as real
    ensures s.stdLift.None? <==> |g| == 1
    ensures s.stdLift.Some? ==>
              s.stdLift.value == num.sqrt(SquaredDeviations(Lifts(g), s.meanLift) / (|g| - 1) as real)
  {
    SummaryRow(n, Share(Rejects(g)), Mean(Lifts(g)), SampleStd(Lifts(g), num),
               Mean(Widths(g)), Share(Covers(g)), Share(SrmPasses(g)))
  }

  /** Power, coverage and SRM pass rate are proportions of runs: the number of runs in the
      group that rejected, covered, or passed the SRM check, over the group size. */
  lemma SummaryRatesCountRuns(n: nat, g: seq<SimRow>, num: Numerics)
    requires num.Sound() && |g| > 0
    ensures var s := SummarizeGroup(n, g, num);
            && s.power == |set i: nat | i < |g| && g[i].reject| as real / |g| as real
            && s.coverage == |set i: nat | i < |g| && g[i].covers| as real / |g| as real
            && s.srmPassRate == |set i: nat | i < |g| && g[i].srmPasses| as real / |g| as real
  {
    CountTrueIsCardinality(Rejects(g));
    assert Selected(Rejects(g)) == set i: nat | i < |g| && g[i].reject;
    CountTrueIsCardinality(Covers(g));
    assert Selected(Covers(g)) == set i: nat | i < |g| && g[i].covers;
    CountTrueIsCardinality(SrmPasses(g));
    assert Selected(SrmPasses(g)) == set i: nat | i < |g| && g[i].srmPasses;
  }

  /** `raw_df.groupby("n_users").agg(...)`: one line per size that was run, in increasing
      order of size, each aggregating exactly the runs of that size. */
  function Summarize(raw: seq<SimRow>, num: Numerics): seq<SummaryRow>
    requires num.Sound()
  {
    var keys := Sizes(raw);
    seq(|keys|, k requires 0 <= k < |keys| =>
        assert keys[k] in keys;
        SummarizeGroup(keys[k], Group(raw, keys[k]), num))
  }

  /** The summary has one line per size that was run, in strictly increasing order of size. */
  lemma SummaryOrder(raw: seq<SimRow>, num: Numerics)
    requires num.Sound()
    ensures var s := Summarize(raw, num);
            && |s| == |Sizes(raw)| && (forall k :: 0 <= k < |s| ==> s[k].nUsers == Sizes(raw)[k])
            && (forall k, l :: 0 <= k < l < |s| ==> s[k].nUsers < s[l].nUsers)
  {
  }

  /** Each line of the summary aggregates the non-empty group of runs of its size, so its
      rates are fractions in [0, 1] and its spread is NaN exactly for a single run. */
  lemma SummaryLine(raw: seq<SimRow>, num: Numerics, k: nat)
    requires num.Sound() && k < |Summarize(raw, num)|
    ensures var line := Summarize(raw, num)[k];
            && HasSize(raw, line.nUsers)
            && line == SummarizeGroup(line.nUsers, Group(raw, line.nUsers), num)
            && 0.0 <= line.power <= 1.0 && 0.0 <= line.coverage <= 1.0 && 0.0 <= line.srmPassRate <= 1.0
            && (line.stdLift.None? <==> |Group(raw, line.nUsers)| == 1)
  {
    assert Sizes(raw)[k] in Sizes(raw);
  }

  /** Every size that was run has a line of the summary, and no other size has one. */
  lemma SummaryCoversSizes(raw: seq<SimRow>, num: Numerics, n: nat)
    requires num.Sound()
    ensures HasSize(raw, n) <==> exists k :: 0 <= k < |Summarize(raw, num)| && Summarize(raw, num)[k].nUsers == n
  {
    var s := Summarize(raw, num);
    if HasSize(raw, n) {
      assert n in Sizes(raw);
      var k :| 0 <= k < |Sizes(raw)| && Sizes(raw)[k] == n;
      assert s[k].nUsers == n;
    }
    if exists k :: 0 <= k < |s| && s[k].nUsers == n {
      var k :| 0 <= k < |s| && s[k].nUsers == n;
      assert Sizes(raw)[k] in Sizes(raw);
    }
  }

  // ---------------------------------------------------------------- run_phase5

  datatype Phase5 = Phase5(raw: seq<SimRow>, summary: seq<SummaryRow>)

  /** The raw rows of the phase with a given routine per run. With no run at all the raw
      frame has no `n_users` column and the groupby raises KeyError. */
  function Phase5Runs(nSims: nat, grid: seq<nat>, cfgBase: ExperimentConfig, sim: Runner<SimRow>)
    : (r: Result<seq<SimRow>>)
    requires Runnable(cfgBase) && Accepts(sim)
    ensures r.Ok? ==> r.value != []
  {
    var rows := Collect(Outcomes(Plan(grid, nSims), cfgBase, sim));
    if rows.Err? then Err(rows.error)
    else if rows.value == [] then Err(MissingColumn("n_users"))
    else rows
  }

  /** The net effect of `run_phase5(n_sims, n_users_grid, cfg_base, true_lift, alpha)`:
      the raw rows and their summary. */
  function Phase5Result(nSims: nat, grid: seq<nat>, cfgBase: ExperimentConfig, trueLift: real,
                        alpha: real, env: Environment): Result<Phase5>
    requires env.Sound() && Runnable(cfgBase)
  {
    var rows := Phase5Runs(nSims, grid, cfgBase, Simulator(trueLift, alpha, env));
    if rows.Err? then Err(rows.error) else Ok(Phase5(rows.value, Summarize(rows.value, env.num)))
  }

  /** With no size or no run per size nothing runs, and the phase raises. */
  lemma Phase5NeedsRuns(nSims: nat, grid: seq<nat>, cfgBase: ExperimentConfig, sim: Runner<SimRow>)
    requires Runnable(cfgBase) && Accepts(sim)
    requires nSims == 0 || grid == []
    ensures Phase5Runs(nSims, grid, cfgBase, sim) == Err(MissingColumn("n_users"))
  {
    PlanLength(grid, nSims);
    assert |grid| * nSims == 0;
    CollectRows(Outcomes(Plan(grid, nSims), cfgBase, sim));
  }

  /** A phase that completes has |grid| * nSims rows, and the run for index i at the g-th
      size, under seed base + 10 000 * size + i, at position g * nSims + i. */
  lemma Phase5Row(nSims: nat, grid: seq<nat>, cfgBase: ExperimentConfig, sim: Runner<SimRow>, g: nat, i: nat)
    requires Runnable(cfgBase) && Accepts(sim) && g < |grid| && i < nSims
    requires Phase5Runs(nSims, grid, cfgBase, sim).Ok?
    ensures var raw := Phase5Runs(nSims, grid, cfgBase, sim).value;
            var run := sim(grid[g], WithSeed(cfgBase, TrialSeed(cfgBase.seed, grid[g], i)));
            && |raw| == |grid| * nSims && RunPosition(g, nSims, i) < |raw|
            && run.Ok? && raw[RunPosition(g, nSims, i)] == run.value
  {
    var outcomes := Outcomes(Plan(grid, nSims), cfgBase, sim);
    var p := RunPosition(g, nSims, i);
    PlanLength(grid, nSims);
    PlanAt(grid, nSims, g, i);
    assert outcomes[p] == sim(grid[g], TrialConfig(cfgBase, Trial(grid[g], i)));
    CollectRows(outcomes);
  }

  /** The rows of `run_phase5` itself are `run_one_sim` rows, each under its own seed. */
  lemma Phase5RunsOneSimEach(nSims: nat, grid: seq<nat>, cfgBase: ExperimentConfig, trueLift: real,
                             alpha: real, env: Environment, g: nat, i: nat)
    requires env.Sound() && Runnable(cfgBase) && g < |grid| && i < nSims
    requires Phase5Result(nSims, grid, cfgBase, trueLift, alpha, env).Ok?
    ensures var raw := Phase5Result(nSims, grid, cfgBase, trueLift, alpha, env).value.raw;
            var run := RunOneSim(grid[g], TrialConfig(cfgBase, Trial(grid[g], i)), trueLift, alpha, env);
            && RunPosition(g, nSims, i) < |raw| && run.Ok? && raw[RunPosition(g, nSims, i)] == run.value
  {
    var sim := Simulator(trueLift, alpha, env);
    Phase5Row(nSims, grid, cfgBase, sim, g, i);
  }

  /** The runs at the g-th size occupy the positions of the outcomes that follow the runs
      of the sizes before it, in index order. */
  lemma SizeBlock(grid: seq<nat>, nSims: nat, g: nat, cfgBase: ExperimentConfig, sim: Runner<SimRow>)
    requires Runnable(cfgBase) && Accepts(sim) && g < |grid|
    ensures var start := |Plan(grid[..g], nSims)|;
            var outcomes := Outcomes(Plan(grid, nSims), cfgBase, sim);
            && |Plan(grid[..g + 1], nSims)| == start + nSims <= |outcomes|
            && forall i :: 0 <= i < nSims ==>
                 outcomes[start + i] == sim(grid[g], WithSeed(cfgBase, TrialSeed(cfgBase.seed, grid[g], i)))
  {
    PlanSplit(grid, g, nSims);
    assert grid[..g + 1] == grid[..g] + [grid[g]];
    assert Plan(grid[..g + 1], nSims) == Plan(grid[..g], nSims) + Trials(grid[g], nSims);
    forall i | 0 <= i < nSims
      ensures |Plan(grid[..g], nSims)| + i < |Outcomes(Plan(grid, nSims), cfgBase, sim)|
      ensures Outcomes(Plan(grid, nSims), cfgBase, sim)[|Plan(grid[..g], nSims)| + i]
              == sim(grid[g], WithSeed(cfgBase, TrialSeed(cfgBase.seed, grid[g], i)))
    {
      OutcomeAfter(grid, nSims, g, i, cfgBase, sim);
    }
  }

  lemma PlanWhole(grid: seq<nat>, nSims: nat)
    ensures Plan(grid[..|grid|], nSims) == Plan(grid, nSims)
  {
    assert grid[..|grid|] == grid;
  }

  /** The inner loop of `run_phase5`: the nSims runs at size n, appended to the rows so
      far, which are the outcomes before `start`; it stops at the first run that raises. */
  method RunSize(n: nat, nSims: nat, cfgBase: ExperimentConfig, sim: Runner<SimRow>,
                 ghost outcomes: seq<Result<SimRow>>, ghost start: nat, rows0: seq<SimRow>)
    returns (rows: seq<SimRow>, failure: Option<Error>)
    requires Runnable(cfgBase) && Accepts(sim) && start + nSims <= |outcomes|
    requires forall i :: 0 <= i < nSims ==>
               outcomes[start + i] == sim(n, WithSeed(cfgBase, TrialSeed(cfgBase.seed, n, i)))
    requires Collect(outcomes[..start]) == Ok(rows0)
    ensures failure.None? ==> Collect(outcomes[..start + nSims]) == Ok(rows)
    ensures failure.Some? ==> Collect(outcomes) == Err(failure.value)
  {
    rows := rows0;
    var i := 0;
    while i < nSims
      invariant 0 <= i <= nSims
      invariant Collect(outcomes[..start + i]) == Ok(rows)
    {
      var row := sim(n, WithSeed(cfgBase, TrialSeed(cfgBase.seed, n, i)));
      assert outcomes[..start + i + 1][..start + i] == outcomes[..start + i];
      if row.Err? {
        CollectFirstError(outcomes, start + i);
        return rows, Some(row.error);
      }
      rows := rows + [row.value];
      i := i + 1;
    }
    failure := None;
  }

  /** The nested loops of `run_phase5` with a given routine per run: for each size of the
      grid, for each run index, a run under its own seed appended to the rows; the first
      run that raises ends the phase, and a phase without rows raises too. */
  method RunGrid(nSims: nat, grid: seq<nat>, cfgBase: ExperimentConfig, sim: Runner<SimRow>)
    returns (r: Result<seq<SimRow>>)
    requires Runnable(cfgBase) && Accepts(sim)
    ensures r == Phase5Runs(nSims, grid, cfgBase, sim)
  {
    ghost var outcomes := Outcomes(Plan(grid, nSims), cfgBase, sim);
    var rows: seq<SimRow> := [];
    var g := 0;
    while g < |grid|
      invariant 0 <= g <= |grid|
      invariant |Plan(grid[..g], nSims)| <= |outcomes|
      invariant Collect(outcomes[..|Plan(grid[..g], nSims)|]) == Ok(rows)
    {
      SizeBlock(grid, nSims, g, cfgBase, sim);
      var failure;
      rows, failure := RunSize(grid[g], nSims, cfgBase, sim, outcomes, |Plan(grid[..g], nSims)|, rows);
      if failure.Some? {
        return Err(failure.value);
      }
      g := g + 1;
    }
    PlanWhole(grid, nSims);
    assert outcomes[..|outcomes|] == outcomes;
    if rows == [] {
      return Err(MissingColumn("n_users"));
    }
    r := Ok(rows);
  }

  /** `run_phase5`: the nested loops with `run_one_sim` for each run, then the summary. */
  method RunPhase5(nSims: nat, grid: seq<nat>, cfgBase: ExperimentConfig, trueLift: real,
                   alpha: real, env: Environment) returns (r: Result<Phase5>)
    requires env.Sound() && Runnable(cfgBase)
    ensures r == Phase5Result(nSims, grid, cfgBase, trueLift, alpha, env)
  {
    var raw := RunGrid(nSims, grid, cfgBase, Simulator(trueLift, alpha, env));
    if raw.Err? {
      return Err(raw.error);
    }
    r := Ok(Phase5(raw.value, Summarize(raw.value, env.num)));
  }

  /** The plan of a grid is the plan of its first g sizes, then the runs of size g, then
      the plan of the rest. */
  lemma {:induction false} PlanSplit(grid: seq<nat>, g: nat, nSims: nat)
    requires g < |grid|
    ensures Plan(grid, nSims) == Plan(grid[..g], nSims) + Trials(grid[g], nSims) + Plan(grid[g + 1..], nSims)
  {
    PlanAppend(grid[..g + 1], grid[g + 1..], nSims);
    assert grid[..g + 1] + grid[g + 1..] == grid;
    assert grid[..g + 1][..g] == grid[..g];
  }

  /** The plan of two grids one after the other is the two plans one after the other. */
  lemma {:induction false} PlanAppend(a: seq<nat>, b: seq<nat>, nSims: nat)
    ensures Plan(a + b, nSims) == Plan(a, nSims) + Plan(b, nSims)
  {
    if b != [] {
      var b' := b[..|b| - 1];
      PlanAppend(a, b', nSims);
      assert (a + b)[..|a + b| - 1] == a + b';
    } else {
      assert a + b == a;
    }
  }
}
