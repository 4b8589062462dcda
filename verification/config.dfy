/** The frozen parameter record of one hypothetical experiment. */
module Configuration {

  datatype ExperimentConfig = ExperimentConfig(
    seed: int,
    split: real,
    trafficPerDay: int,
    baselineSignupCvr: real,
    treatmentAbsLift: real,
    purchaseGivenSignup: real,
    practicalAbsLift: real,
    complianceRate: real,
    experimentDays: int,
    noveltyDecayK: real)

  /** The record's field defaults. */
  const Default := ExperimentConfig(
    seed := 42, split := 0.5, trafficPerDay := 10000, baselineSignupCvr := 0.12,
    treatmentAbsLift := 0.012, purchaseGivenSignup := 0.20, practicalAbsLift := 0.005,
    complianceRate := 1.0, experimentDays := 28, noveltyDecayK := 0.0)

  /** `cfg.__class__(**{**cfg.__dict__, "seed": seed})`: a new record that differs from
      `cfg` in the seed and nowhere else. */
  function WithSeed(cfg: ExperimentConfig, seed: int): (r: ExperimentConfig)
    ensures r.seed == seed
    ensures r.(seed := cfg.seed) == cfg
  {
    cfg.(seed := seed)
  }
}
