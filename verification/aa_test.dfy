/** The A/A validation: experiments in which both arms get the same treatment, run many
    times under consecutive seeds, one row of flags per run. */
module AaTest {
  import opened Frames
  import opened Configuration
  import opened Simulate
  import opened Analysis

  /** The level at which an A/A run counts as a (false) rejection. */
  const AaLevel: real := 0.05

  /** What `run_aa_once` reports about one run. */
  datatype AaRow = AaRow(
    pValue: real, ciLow: real, ciHigh: real, reject: bool, ciExcludesZero: bool, srmPasses: bool)

  /** `run_aa_once`: simulate, analyse the signups, and flag a rejection at 5% and an
      interval that leaves out zero. Both are copied from the analysis; an analysis that
      raises makes the run raise. */
  function RunAaOnce(n: nat, cfg: ExperimentConfig, env: Environment): (r: Result<AaRow>)
    requires env.Sound() && Runnable(cfg)
    ensures var a := RunAbAnalysis(RunExperiment(n, cfg, env), "signed_up", env.num);
            && (r.Err? <==> a.Err?)
            && (r.Err? ==> r.error == a.error)
            && (r.Ok? ==> && r.value.pValue == a.value.test.pValue
                          && r.value.ciLow == a.value.liftCi.ciLow
                          && r.value.ciHigh == a.value.liftCi.ciHigh
                          && r.value.srmPasses == a.value.srm.passes)
    ensures r.Ok? ==> && (r.value.reject <==> r.value.pValue < AaLevel)
                      && (r.value.ciExcludesZero <==> r.value.ciLow > 0.0 || r.value.ciHigh < 0.0)
  {
    var a := RunAbAnalysis(RunExperiment(n, cfg, env), "signed_up", env.num);
    if a.Err? then Err(a.error)
    else
      var ci := a.value.liftCi;
      var p := a.value.test.pValue;
      Ok(AaRow(p, ci.ciLow, ci.ciHigh, p < AaLevel, ci.ciLow > 0.0 || ci.ciHigh < 0.0, a.value.srm.passes))
  }

  /** What an A/A row can be relied on for: a p-value that is a probability, an interval
      that leaves out zero exactly when zero is not inside it, and a rejection only when
      the interval reaches above zero (the test is one-sided, towards "B" better). */
  lemma AaRowFacts(n: nat, cfg: ExperimentConfig, env: Environment)
    requires env.Sound() && Runnable(cfg) && RunAaOnce(n, cfg, env).Ok?
    ensures var row := RunAaOnce(n, cfg, env).value;
            && 0.0 <= row.pValue <= 1.0
            && row.ciLow <= row.ciHigh
            && (row.ciExcludesZero <==> !(row.ciLow <= 0.0 <= row.ciHigh))
            && (row.reject ==> row.ciHigh > 0.0)
  {
    SignupsBinary(n, cfg, env);
    AnalysisFacts(RunExperiment(n, cfg, env), "signed_up", env.num);
  }

  /** `run_aa_once`, as a routine: the one `run_aa_simulation` calls. */
  function AaRunner(env: Environment): (once: Runner<AaRow>)
    requires env.Sound()
    ensures Accepts(once)
    ensures forall n, cfg :: Runnable(cfg) ==> once(n, cfg) == RunAaOnce(n, cfg, env)
  {
    (n: nat, cfg: ExperimentConfig) requires env.Sound() && Runnable(cfg) => RunAaOnce(n, cfg, env)
  }

  /** The configuration of run i: the given one with seed `cfg.seed + i`, every other
      field unchanged. */
  function RunConfig(cfg: ExperimentConfig, i: nat): (c: ExperimentConfig)
    ensures c.seed == cfg.seed + i && c.(seed := cfg.seed) == cfg
    ensures Runnable(cfg) ==> Runnable(c)
  {
    WithSeed(cfg, cfg.seed + i)
  }

  /** What each of the nSims runs raises or returns, in run order. */
  function AaOutcomes(nSims: nat, n: nat, cfg: ExperimentConfig, once: Runner<AaRow>): (o: seq<Result<AaRow>>)
    requires Runnable(cfg) && Accepts(once)
    ensures |o| == nSims
  {
    seq(nSims, i requires 0 <= i < nSims => once(n, RunConfig(cfg, i)))
  }

  /** The net effect of `run_aa_simulation(n_sims, n_users, cfg)`. No run gives an empty
      frame; the first run that raises makes the whole simulation raise. */
  function AaSimulationResult(nSims: nat, n: nat, cfg: ExperimentConfig, env: Environment)
    : Result<seq<AaRow>>
    requires env.Sound() && Runnable(cfg)
  {
    Collect(AaOutcomes(nSims, n, cfg, AaRunner(env)))
  }

  /** The loop of `run_aa_simulation` with a given routine per run: run i under seed
      `cfg.seed + i`, appended in run order; the first run that raises ends the loop. */
  method RunAaLoop(nSims: nat, n: nat, cfg: ExperimentConfig, once: Runner<AaRow>) returns (r: Result<seq<AaRow>>)
    requires Runnable(cfg) && Accepts(once)
    ensures r == Collect(AaOutcomes(nSims, n, cfg, once))
  {
    ghost var outcomes := AaOutcomes(nSims, n, cfg, once);
    var rows: seq<AaRow> := [];
    var i := 0;
    while i < nSims
      invariant 0 <= i <= nSims
      invariant Collect(outcomes[..i]) == Ok(rows)
    {
      var row := once(n, RunConfig(cfg, i));
      assert outcomes[..i + 1][..i] == outcomes[..i];
      if row.Err? {
        CollectFirstError(outcomes, i);
        return Err(row.error);
      }
      rows := rows + [row.value];
      i := i + 1;
    }
    assert outcomes[..nSims] == outcomes;
    r := Ok(rows);
  }

  /** `run_aa_simulation`: the loop with `run_aa_once` for each run. */
  method RunAaSimulation(nSims: nat, n: nat, cfg: ExperimentConfig, env: Environment)
    returns (r: Result<seq<AaRow>>)
    requires env.Sound() && Runnable(cfg)
    ensures r == AaSimulationResult(nSims, n, cfg, env)
  {
    r := RunAaLoop(nSims, n, cfg, AaRunner(env));
  }

  /** With any routine per run: the loop completes exactly when every run does, and then
      holds run i's row at position i; otherwise the first run that raises decides. */
  lemma {:induction false} AaLoopRows(nSims: nat, n: nat, cfg: ExperimentConfig, once: Runner<AaRow>)
    requires Runnable(cfg) && Accepts(once)
    ensures var r := Collect(AaOutcomes(nSims, n, cfg, once));
            && (r.Ok? <==> forall i :: 0 <= i < nSims ==> once(n, RunConfig(cfg, i)).Ok?)
            && (r.Ok? ==> forall i :: 0 <= i < nSims ==> r.value[i] == once(n, RunConfig(cfg, i)).value)
  {
    var outcomes := AaOutcomes(nSims, n, cfg, once);
    assert forall i :: 0 <= i < nSims ==> outcomes[i] == once(n, RunConfig(cfg, i));
    CollectRows(outcomes);
  }

  /** A simulation that completes has exactly nSims rows, row i being the A/A run under
      seed `cfg.seed + i`. */
  lemma AaSimulationRow(nSims: nat, n: nat, cfg: ExperimentConfig, env: Environment, i: nat)
    requires env.Sound() && Runnable(cfg) && i < nSims
    requires AaSimulationResult(nSims, n, cfg, env).Ok?
    ensures var rows := AaSimulationResult(nSims, n, cfg, env).value;
            var run := RunAaOnce(n, RunConfig(cfg, i), env);
            && |rows| == nSims && run.Ok? && rows[i] == run.value
  {
    AaLoopRows(nSims, n, cfg, AaRunner(env));
  }

  /** With any routine per run: when runs 0 to k - 1 go through and run k raises, the
      loop raises run k's error. */
  lemma AaLoopFirstError(nSims: nat, n: nat, cfg: ExperimentConfig, once: Runner<AaRow>, k: nat)
    requires Runnable(cfg) && Accepts(once) && k < nSims
    requires forall i :: 0 <= i < k ==> once(n, RunConfig(cfg, i)).Ok?
    requires once(n, RunConfig(cfg, k)).Err?
    ensures Collect(AaOutcomes(nSims, n, cfg, once)) == Err(once(n, RunConfig(cfg, k)).error)
  {
    var outcomes := AaOutcomes(nSims, n, cfg, once);
    AaLoopRows(k, n, cfg, once);
    assert outcomes[..k] == AaOutcomes(k, n, cfg, once);
    assert outcomes[k] == once(n, RunConfig(cfg, k));
    CollectFirstError(outcomes, k);
  }
}
