/** The outcome simulator: the deterministic skeleton around the random draws.
    Every generator `np.random.default_rng(s)` is a function of its seed in the
    `Environment`; the Bernoulli draw `binomial(1, p)` is a uniform draw u in [0, 1)
    that succeeds when u < p. */
module Simulate {
  import opened Frames
  import opened Numeric
  import opened Configuration
  import opened Assignment

  /** What `default_rng(seed)` yields for `generate_users`: is_new, device, channel. */
  datatype UserDraws = UserDraws(isNew: seq<int>, device: seq<string>, channel: seq<string>)

  /** What `default_rng(seed)` yields for `simulate_signup`: the compliance uniforms,
      then the uniforms behind the signup draws. */
  datatype SignupDraws = SignupDraws(compliance: seq<real>, signup: seq<real>)

  predicate Uniforms(u: seq<real>, n: nat) {
    |u| == n && forall i :: 0 <= i < n ==> 0.0 <= u[i] < 1.0
  }

  predicate UserDrawsFit(d: UserDraws, n: nat) {
    && |d.isNew| == n && |d.device| == n && |d.channel| == n
    && (forall i :: 0 <= i < n ==> d.isNew[i] == 0 || d.isNew[i] == 1)
    && (forall i :: 0 <= i < n ==> d.device[i] == "mobile" || d.device[i] == "desktop")
    && (forall i :: 0 <= i < n ==> d.channel[i] == "search" || d.channel[i] == "social")
  }

  /** `integers(0, days, size=n)`: n integers in [0, days). */
  predicate DaysFit(d: seq<int>, days: int, n: nat) {
    |d| == n && forall i :: 0 <= i < n ==> 0 <= d[i] < days
  }

  /** The foreign calls of one trial: the numeric library, MD5 of `str(user_id)`, and the
      generators, each indexed by the seed the source gives it. */
  datatype Environment = Environment(
    num: Numerics,
    md5Hex: int -> string,
    userDraws: (int, nat) -> UserDraws,
    signupDraws: (int, nat) -> SignupDraws,
    dayDraws: (int, int, nat) -> seq<int>,
    purchaseDraws: (int, nat) -> seq<real>)
  {
    ghost predicate Sound() {
      && num.Sound()
      && (forall u :: IsHexDigest(md5Hex(u)))
      && (forall seed, n :: UserDrawsFit(userDraws(seed, n), n))
      && (forall seed, n :: Uniforms(signupDraws(seed, n).compliance, n)
                            && Uniforms(signupDraws(seed, n).signup, n))
      && (forall seed, days, n :: days >= 1 ==> DaysFit(dayDraws(seed, days, n), days, n))
      && (forall seed, n :: Uniforms(purchaseDraws(seed, n), n))
    }
  }

  /** The configurations the simulator can run: a baseline rate strictly inside (0, 1)
      (its log-odds is taken) and an experiment of at least one day. */
  predicate Runnable(cfg: ExperimentConfig) {
    0.0 < cfg.baselineSignupCvr < 1.0 && cfg.experimentDays >= 1
  }

  /** A routine that runs one simulated experiment of a given size under a given
      configuration and returns its row of results or raises. */
  type Runner<T> = (nat, ExperimentConfig) --> Result<T>

  /** The routine accepts every configuration the simulator can run. */
  ghost predicate Accepts<T>(run: Runner<T>) {
    forall n, cfg :: Runnable(cfg) ==> run.requires(n, cfg)
  }

  /** The record's defaults (12% baseline, 28 days) are a configuration the simulator can run. */
  lemma DefaultRunnable()
    ensures Runnable(Default) && Default.noveltyDecayK == 0.0
  {
  }

  /** Numeric reading of a cell the simulator wrote. */
  function AsReal(v: Value): real {
    match v
    case Int(i) => i as real
    case Real(r) => r
    case Str(_) => 0.0
  }

  /** `binomial(1, p)` fed by the uniform u. */
  function Bernoulli(u: real, p: real): (b: int)
    ensures b == 0 || b == 1
    ensures 0.0 <= u < 1.0 ==> (p <= 0.0 ==> b == 0) && (p >= 1.0 ==> b == 1)
  {
    Flag(u < p)
  }

  // ---------------------------------------------------------------- generate_users

  /** `generate_users`: one row per user, ids 1..n in order, covariates from the draws. */
  function GenerateUsers(n: nat, seed: int, env: Environment): (f: Frame)
    requires env.Sound()
    ensures f.Valid() && f.height == n
    ensures f.cols.Keys == {"user_id", "is_new", "device", "channel"}
    ensures forall i :: 0 <= i < n ==> f.cols["user_id"][i] == Int(i + 1)
    ensures forall i :: 0 <= i < n ==> f.cols["is_new"][i] == Int(0) || f.cols["is_new"][i] == Int(1)
    ensures IntegerIds(f)
  {
    var d := env.userDraws(seed, n);
    Frame(n, map[
      "user_id" := seq(n, i requires 0 <= i < n => Int(i + 1)),
      "is_new" := seq(n, i requires 0 <= i < n => Int(d.isNew[i])),
      "device" := seq(n, i requires 0 <= i < n => Str(d.device[i])),
      "channel" := seq(n, i requires 0 <= i < n => Str(d.channel[i]))])
  }

  // ---------------------------------------------------------------- simulate_signup

  /** `(df["variant"] == "B").astype(int)` */
  function AssignedColumn(variant: seq<Value>): (c: seq<Value>)
    ensures |c| == |variant|
    ensures forall i :: 0 <= i < |c| ==> c[i] == Int(Flag(variant[i] == Str("B")))
  {
    seq(|variant|, i requires 0 <= i < |variant| => Int(Flag(variant[i] == Str("B"))))
  }

  /** `((assigned_B == 1) & (u < compliance_rate)).astype(int)` */
  function ExposedColumn(assignedB: seq<Value>, u: seq<real>, compliance: real): (c: seq<Value>)
    requires |u| == |assignedB|
    ensures |c| == |assignedB|
    ensures forall i :: 0 <= i < |c| ==> c[i] == Int(Flag(NumEq(assignedB[i], 1) && u[i] < compliance))
  {
    seq(|assignedB|, i requires 0 <= i < |assignedB| => Int(Flag(NumEq(assignedB[i], 1) && u[i] < compliance)))
  }

  /** The covariate log-odds of one user. */
  function Logit(num: Numerics, cvr: real, isNew: Value, device: Value, channel: Value): real
    requires 0.0 < cvr < 1.0
  {
    num.log(cvr / (1.0 - cvr))
      + 0.30 * Flag(NumEq(isNew, 1)) as real
      - 0.20 * Flag(device == Str("mobile")) as real
      + 0.10 * Flag(channel == Str("search")) as real
  }

  /** `sigmoid(logit)`: the baseline signup probability of each user. */
  function BaseColumn(num: Numerics, cvr: real, isNew: seq<Value>, device: seq<Value>,
                      channel: seq<Value>): (c: seq<Value>)
    requires num.Sound() && 0.0 < cvr < 1.0
    requires |device| == |isNew| && |channel| == |isNew|
    ensures |c| == |isNew|
    ensures forall i :: 0 <= i < |c| ==> c[i].Real? && 0.0 < c[i].r < 1.0
  {
    seq(|isNew|, i requires 0 <= i < |isNew| =>
        Real(Sigmoid(num, Logit(num, cvr, isNew[i], device[i], channel[i]))))
  }

  function IntColumn(xs: seq<int>): (c: seq<Value>)
    ensures |c| == |xs| && forall i :: 0 <= i < |c| ==> c[i] == Int(xs[i])
  {
    seq(|xs|, i requires 0 <= i < |xs| => Int(xs[i]))
  }

  /** `np.clip(p_signup_base + lift * exposed_B, 0, 1)` on one row. */
  function SignupProb(base: Value, exposed: Value, lift: real): (p: real)
    ensures 0.0 <= p <= 1.0
  {
    Clip(AsReal(base) + lift * AsReal(exposed), 0.0, 1.0)
  }

  /** The signup probability of every row, for a per-row lift. */
  function SignupProbColumn(base: seq<Value>, exposed: seq<Value>, lift: seq<real>): (c: seq<Value>)
    requires |exposed| == |base| && |lift| == |base|
    ensures |c| == |base|
    ensures forall i :: 0 <= i < |c| ==> c[i] == Real(SignupProb(base[i], exposed[i], lift[i]))
  {
    seq(|base|, i requires 0 <= i < |base| => Real(SignupProb(base[i], exposed[i], lift[i])))
  }

  /** `lift0 * exp(-k * day)` on one row. */
  function DecayedLiftAt(num: Numerics, lift0: real, k: real, day: Value): real {
    lift0 * num.exp(-k * AsReal(day))
  }

  /** The day-decayed lift of every row. */
  function DecayedLift(num: Numerics, lift0: real, k: real, day: seq<Value>): (l: seq<real>)
    ensures |l| == |day|
    ensures forall i :: 0 <= i < |l| ==> l[i] == DecayedLiftAt(num, lift0, k, day[i])
  {
    seq(|day|, i requires 0 <= i < |day| => DecayedLiftAt(num, lift0, k, day[i]))
  }

  /** The same lift on every row. */
  function ConstantLift(lift0: real, n: nat): (l: seq<real>)
    ensures |l| == n && forall i :: 0 <= i < n ==> l[i] == lift0
  {
    seq(n, _ => lift0)
  }

  /** `rng.binomial(1, p)` row by row. */
  function BernoulliColumn(u: seq<real>, p: seq<Value>): (c: seq<Value>)
    requires |u| == |p|
    ensures |c| == |p| && forall i :: 0 <= i < |c| ==> c[i] == Int(Bernoulli(u[i], AsReal(p[i])))
  {
    seq(|p|, i requires 0 <= i < |p| => Int(Bernoulli(u[i], AsReal(p[i]))))
  }

  /** simulate_signup reads variant, is_new, device and channel. */
  predicate HasSignupInputs(f: Frame) {
    "variant" in f.cols && "is_new" in f.cols && "device" in f.cols && "channel" in f.cols
  }

  /** The column whose lookup raises KeyError first, in the order simulate_signup reads them. */
  function MissingSignupInput(f: Frame): (c: string)
    requires !HasSignupInputs(f)
    ensures c !in f.cols
    ensures c == "variant" || c == "is_new" || c == "device" || c == "channel"
  {
    if "variant" !in f.cols then "variant"
    else if "is_new" !in f.cols then "is_new"
    else if "device" !in f.cols then "device"
    else "channel"
  }

  /** The columns simulate_signup writes, as they stand when it returns. */
  datatype SignupColumns = SignupColumns(
    assignedB: seq<Value>, exposed: seq<Value>, base: seq<Value>,
    day: seq<Value>, pSignup: seq<Value>, signedUp: seq<Value>)
  {
    predicate Fits(n: nat) {
      |assignedB| == n && |exposed| == n && |base| == n && |day| == n && |pSignup| == n && |signedUp| == n
    }
  }

  /** The final value of each column simulate_signup writes. `p_signup` is the one written
      last, with the constant lift; the day-decayed one it replaces leaves no trace. */
  function SignupColumnsOf(users: Frame, cfg: ExperimentConfig, seed: int, env: Environment): (s: SignupColumns)
    requires users.Valid() && env.Sound() && Runnable(cfg) && HasSignupInputs(users)
    ensures s.Fits(users.height)
  {
    var n := users.height;
    var draws := env.signupDraws(seed, n);
    var assignedB := AssignedColumn(users.cols["variant"]);
    var exposed := ExposedColumn(assignedB, draws.compliance, cfg.complianceRate);
    var base := BaseColumn(env.num, cfg.baselineSignupCvr,
                           users.cols["is_new"], users.cols["device"], users.cols["channel"]);
    var day := IntColumn(env.dayDraws(seed + 999, cfg.experimentDays, n));
    var p := SignupProbColumn(base, exposed, ConstantLift(cfg.treatmentAbsLift, n));
    SignupColumns(assignedB, exposed, base, day, p, BernoulliColumn(draws.signup, p))
  }

  /** The frame with the six signup columns written over it. */
  function WriteSignup(users: Frame, s: SignupColumns): (f: Frame)
    requires users.Valid() && s.Fits(users.height)
    ensures f.Valid() && f.height == users.height
    ensures f.cols.Keys == users.cols.Keys + {"assigned_B", "exposed_B", "p_signup_base", "day", "p_signup", "signed_up"}
    ensures f.cols["assigned_B"] == s.assignedB && f.cols["exposed_B"] == s.exposed
    ensures f.cols["p_signup_base"] == s.base && f.cols["day"] == s.day
    ensures f.cols["p_signup"] == s.pSignup && f.cols["signed_up"] == s.signedUp
    ensures forall c | c in users.cols && c !in {"assigned_B", "exposed_B", "p_signup_base", "day", "p_signup", "signed_up"} ::
              f.cols[c] == users.cols[c]
  {
    Frame(users.height, users.cols["assigned_B" := s.assignedB]["exposed_B" := s.exposed]
                                  ["p_signup_base" := s.base]["day" := s.day]
                                  ["p_signup" := s.pSignup]["signed_up" := s.signedUp])
  }

  /** The net effect of `simulate_signup(users, cfg, seed)`: the frame it returns. */
  function SignupFrame(users: Frame, cfg: ExperimentConfig, seed: int, env: Environment): (r: Result<Frame>)
    requires users.Valid() && env.Sound() && Runnable(cfg)
    ensures r.Err? <==> !HasSignupInputs(users)
    ensures r.Err? ==> r.error == MissingColumn(MissingSignupInput(users))
    ensures r.Ok? ==> r.value == WriteSignup(users, SignupColumnsOf(users, cfg, seed, env))
  {
    if !HasSignupInputs(users) then Err(MissingColumn(MissingSignupInput(users)))
    else Ok(WriteSignup(users, SignupColumnsOf(users, cfg, seed, env)))
  }

  /** `simulate_signup`: a copy of the users, with the columns written one after another.
      The day-decayed probability goes to `p_signup` and is then overwritten by the
      constant-lift one, so the frame returned is `SignupFrame`, where novelty_decay_k
      plays no part. */
  method SimulateSignup(users: Frame, cfg: ExperimentConfig, seed: int, env: Environment)
    returns (r: Result<Frame>)
    requires users.Valid() && env.Sound() && Runnable(cfg)
    ensures r == SignupFrame(users, cfg, seed, env)
  {
    if !HasSignupInputs(users) {
      return Err(MissingColumn(MissingSignupInput(users)));
    }
    var df := users;
    var n := df.height;
    var draws := env.signupDraws(seed, n);
    var assignedB := AssignedColumn(df.cols["variant"]);
    df := df.WithColumn("assigned_B", assignedB);
    var exposed := ExposedColumn(df.cols["assigned_B"], draws.compliance, cfg.complianceRate);
    df := df.WithColumn("exposed_B", exposed);
    var base := BaseColumn(env.num, cfg.baselineSignupCvr, df.cols["is_new"], df.cols["device"], df.cols["channel"]);
    df := df.WithColumn("p_signup_base", base);
    var day := IntColumn(env.dayDraws(seed + 999, cfg.experimentDays, n));
    df := df.WithColumn("day", day);
    var liftDay := DecayedLift(env.num, cfg.treatmentAbsLift, cfg.noveltyDecayK, df.cols["day"]);
    var decayed := SignupProbColumn(df.cols["p_signup_base"], df.cols["exposed_B"], liftDay);
    ghost var before := df;
    df := df.WithColumn("p_signup", decayed);
    var p := SignupProbColumn(df.cols["p_signup_base"], df.cols["exposed_B"], ConstantLift(cfg.treatmentAbsLift, n));
    df := df.WithColumn("p_signup", p);
    OverwriteColumn(before, "p_signup", decayed, p);
    var signed := BernoulliColumn(draws.signup, df.cols["p_signup"]);
    df := df.WithColumn("signed_up", signed);
    assert SignupColumnsOf(users, cfg, seed, env) == SignupColumns(assignedB, exposed, base, day, p, signed);
    r := Ok(df);
  }

  /** Row facts of the signup columns: the arm indicator; exposure only within arm B and
      under the compliance draw; a probability in [0, 1] that is the baseline on unexposed
      rows and the clipped baseline plus the lift on exposed ones; a day in
      [0, experiment_days); and a 0/1 outcome drawn against that probability. */
  lemma SignupRows(users: Frame, cfg: ExperimentConfig, seed: int, env: Environment, i: nat)
    requires users.Valid() && env.Sound() && Runnable(cfg) && HasSignupInputs(users)
    requires i < users.height
    ensures var s := SignupColumnsOf(users, cfg, seed, env);
            var draws := env.signupDraws(seed, users.height);
            && (s.assignedB[i] == Int(1) <==> users.cols["variant"][i] == Str("B"))
            && (s.exposed[i] == Int(0) || s.exposed[i] == Int(1))
            && (s.exposed[i] == Int(1) <==>
                  users.cols["variant"][i] == Str("B") && draws.compliance[i] < cfg.complianceRate)
            && s.base[i] == Real(Sigmoid(env.num, Logit(env.num, cfg.baselineSignupCvr,
                 users.cols["is_new"][i], users.cols["device"][i], users.cols["channel"][i])))
            && s.base[i].Real? && 0.0 < s.base[i].r < 1.0
            && s.pSignup[i].Real? && 0.0 <= s.pSignup[i].r <= 1.0
            && (s.exposed[i] == Int(0) ==> s.pSignup[i] == s.base[i])
            && (s.exposed[i] == Int(1) ==>
                  s.pSignup[i].r == Clip(s.base[i].r + cfg.treatmentAbsLift, 0.0, 1.0))
            && s.day[i].Int? && 0 <= s.day[i].i < cfg.experimentDays
            && (s.signedUp[i] == Int(0) || s.signedUp[i] == Int(1))
            && (s.signedUp[i] == Int(1) <==> draws.signup[i] < s.pSignup[i].r)
  {
    var s := SignupColumnsOf(users, cfg, seed, env);
    var draws := env.signupDraws(seed, users.height);
    var days := env.dayDraws(seed + 999, cfg.experimentDays, users.height);
    assert DaysFit(days, cfg.experimentDays, users.height);
    assert Uniforms(draws.signup, users.height);
    assert s.day[i] == Int(days[i]);
    var b := s.base[i].r;
    if s.exposed[i] == Int(0) {
      assert b + cfg.treatmentAbsLift * 0.0 == b;
    }
  }

  /** Full compliance exposes every B row, zero compliance none. */
  lemma ComplianceExtremes(users: Frame, cfg: ExperimentConfig, seed: int, env: Environment, i: nat)
    requires users.Valid() && env.Sound() && Runnable(cfg) && HasSignupInputs(users)
    requires i < users.height
    ensures var s := SignupColumnsOf(users, cfg, seed, env);
            && (cfg.complianceRate >= 1.0 ==> (s.exposed[i] == Int(1) <==> users.cols["variant"][i] == Str("B")))
            && (cfg.complianceRate <= 0.0 ==> s.exposed[i] == Int(0))
  {
    var draws := env.signupDraws(seed, users.height);
    assert Uniforms(draws.compliance, users.height);
    SignupRows(users, cfg, seed, env, i);
  }

  /** The decay rate does not reach the result: two configurations that differ only in
      novelty_decay_k simulate the same signups. */
  lemma DecayRateIgnored(users: Frame, cfg: ExperimentConfig, k: real, seed: int, env: Environment)
    requires users.Valid() && env.Sound() && Runnable(cfg)
    ensures SignupFrame(users, cfg.(noveltyDecayK := k), seed, env) == SignupFrame(users, cfg, seed, env)
  {
  }

  /** At k = 0 the day-decayed probability that is overwritten equals the one that replaces
      it, so there the overwrite matches the evident intent of a decaying lift. */
  lemma DecayVanishesAtZero(num: Numerics, lift0: real, base: seq<Value>, exposed: seq<Value>, day: seq<Value>)
    requires num.Sound() && |exposed| == |base| && |day| == |base|
    ensures SignupProbColumn(base, exposed, DecayedLift(num, lift0, 0.0, day))
            == SignupProbColumn(base, exposed, ConstantLift(lift0, |base|))
  {
    assert DecayedLift(num, lift0, 0.0, day) == ConstantLift(lift0, |base|) by {
      forall i | 0 <= i < |day| ensures -0.0 * AsReal(day[i]) == 0.0 { }
    }
  }

  // ---------------------------------------------------------------- simulate_purchase

  /** `np.clip(base + 0.03 * returning - 0.02 * social, 0, 1)` for every row. */
  function PurchaseProbColumn(base: real, isNew: seq<Value>, channel: seq<Value>): (c: seq<Value>)
    requires |channel| == |isNew|
    ensures |c| == |isNew|
    ensures forall i :: 0 <= i < |c| ==> c[i] == Real(Clip(
              base + 0.03 * Flag(NumEq(isNew[i], 0)) as real - 0.02 * Flag(channel[i] == Str("social")) as real,
              0.0, 1.0))
  {
    seq(|isNew|, i requires 0 <= i < |isNew| => Real(Clip(
        base + 0.03 * Flag(NumEq(isNew[i], 0)) as real - 0.02 * Flag(channel[i] == Str("social")) as real,
        0.0, 1.0)))
  }

  /** `purchased = 0` and then `purchased[mask] = binomial(1, p[mask])`: the k-th selected
      row takes the k-th draw, every other row keeps 0. */
  function PurchasedAt(mask: seq<bool>, p: seq<Value>, u: seq<real>, i: nat): (c: Value)
    requires |p| == |mask| && |u| == CountTrue(mask) && i < |mask|
    ensures c == Int(0) || c == Int(1)
    ensures !mask[i] ==> c == Int(0)
    ensures mask[i] ==> c == Int(Bernoulli(u[Rank(mask, i)], AsReal(p[i])))
  {
    if mask[i] then Int(Bernoulli(u[Rank(mask, i)], AsReal(p[i]))) else Int(0)
  }

  /** The purchase column of every row. */
  function PurchasedColumn(mask: seq<bool>, p: seq<Value>, u: seq<real>): (c: seq<Value>)
    requires |p| == |mask| && |u| == CountTrue(mask)
    ensures |c| == |mask| && forall i :: 0 <= i < |mask| ==> c[i] == PurchasedAt(mask, p, u, i)
  {
    seq(|mask|, i requires 0 <= i < |mask| => PurchasedAt(mask, p, u, i))
  }

  /** simulate_purchase reads is_new, channel and signed_up. */
  predicate HasPurchaseInputs(f: Frame) {
    "is_new" in f.cols && "channel" in f.cols && "signed_up" in f.cols
  }

  /** The column whose lookup raises KeyError first, in the order simulate_purchase reads them. */
  function MissingPurchaseInput(f: Frame): (c: string)
    requires !HasPurchaseInputs(f)
    ensures c !in f.cols
    ensures c == "is_new" || c == "channel" || c == "signed_up"
  {
    if "is_new" !in f.cols then "is_new"
    else if "channel" !in f.cols then "channel"
    else "signed_up"
  }

  /** The net effect of `simulate_purchase(df, purchase_given_signup, seed)`. */
  function PurchaseFrame(df: Frame, purchaseGivenSignup: real, seed: int, env: Environment): (r: Result<Frame>)
    requires df.Valid() && env.Sound()
    ensures r.Err? <==> !HasPurchaseInputs(df)
    ensures r.Err? ==> r.error == MissingColumn(MissingPurchaseInput(df))
    ensures r.Ok? ==> && r.value.Valid() && r.value.height == df.height
                      && r.value.cols.Keys == df.cols.Keys + {"p_purchase_given_signup", "purchased"}
                      && (forall c | c in df.cols && c != "p_purchase_given_signup" && c != "purchased" ::
                            r.value.cols[c] == df.cols[c])
  {
    if !HasPurchaseInputs(df) then Err(MissingColumn(MissingPurchaseInput(df)))
    else
      var p := PurchaseProbColumn(purchaseGivenSignup, df.cols["is_new"], df.cols["channel"]);
      var mask := EqualsOne(df.cols["signed_up"]);
      var u := env.purchaseDraws(seed + 1, CountTrue(mask));
      Ok(df.WithColumn("p_purchase_given_signup", p)
           .WithColumn("purchased", PurchasedColumn(mask, p, u)))
  }

  /** `out.loc[mask, "purchased"] = draws` on a column of zeros: walks the rows and hands
      the next draw to each selected row. */
  method ScatterPurchases(mask: seq<bool>, p: seq<Value>, u: seq<real>) returns (purchased: seq<Value>)
    requires |p| == |mask| && |u| == CountTrue(mask)
    ensures purchased == PurchasedColumn(mask, p, u)
  {
    var n := |mask|;
    purchased := seq(n, _ => Int(0));
    var i, k := 0, 0;
    while i < n
      invariant 0 <= i <= n && |purchased| == n
      invariant k == CountTrue(mask[..i])
      invariant forall j :: 0 <= j < i ==> purchased[j] == PurchasedAt(mask, p, u, j)
      invariant forall j :: i <= j < n ==> purchased[j] == Int(0)
    {
      CountTruePrefix(mask, i);
      if mask[i] {
        assert k == Rank(mask, i);
        purchased := purchased[i := Int(Bernoulli(u[k], AsReal(p[i])))];
        k := k + 1;
      }
      i := i + 1;
    }
  }

  /** `simulate_purchase`: copy, write the probability, zero the purchases, then hand the
      draws to the signed-up rows one after another, in row order. */
  method SimulatePurchase(df: Frame, purchaseGivenSignup: real, seed: int, env: Environment)
    returns (r: Result<Frame>)
    requires df.Valid() && env.Sound()
    ensures r == PurchaseFrame(df, purchaseGivenSignup, seed, env)
  {
    if !HasPurchaseInputs(df) {
      return Err(MissingColumn(MissingPurchaseInput(df)));
    }
    var out := df;
    var n := out.height;
    var p := PurchaseProbColumn(purchaseGivenSignup, out.cols["is_new"], out.cols["channel"]);
    out := out.WithColumn("p_purchase_given_signup", p);
    ghost var before := out;
    var zeros := seq(n, _ => Int(0));
    out := out.WithColumn("purchased", zeros);
    var mask := EqualsOne(out.cols["signed_up"]);
    var u := env.purchaseDraws(seed + 1, CountTrue(mask));
    var purchased := ScatterPurchases(mask, out.cols["p_purchase_given_signup"], u);
    out := out.WithColumn("purchased", purchased);
    OverwriteColumn(before, "purchased", zeros, purchased);
    r := Ok(out);
  }

  /** Row facts of the purchase frame: the probability column is the clipped per-user
      rate, a probability in [0, 1]; the purchase is 0/1, 0 on every row that did not sign
      up, and on a signed-up row it is 1 exactly when the draw at that row's rank among the
      signed-up rows falls below its probability. */
  lemma PurchaseRows(df: Frame, purchaseGivenSignup: real, seed: int, env: Environment, i: nat)
    requires df.Valid() && env.Sound() && HasPurchaseInputs(df) && i < df.height
    ensures var f := PurchaseFrame(df, purchaseGivenSignup, seed, env).value;
            var mask := EqualsOne(df.cols["signed_up"]);
            var u := env.purchaseDraws(seed + 1, CountTrue(mask));
            && f.cols["p_purchase_given_signup"]
                 == PurchaseProbColumn(purchaseGivenSignup, df.cols["is_new"], df.cols["channel"])
            && f.cols["p_purchase_given_signup"][i].Real?
            && 0.0 <= f.cols["p_purchase_given_signup"][i].r <= 1.0
            && (f.cols["purchased"][i] == Int(0) || f.cols["purchased"][i] == Int(1))
            && (!NumEq(df.cols["signed_up"][i], 1) ==> f.cols["purchased"][i] == Int(0))
            && (NumEq(df.cols["signed_up"][i], 1) ==>
                  (f.cols["purchased"][i] == Int(1) <==> u[Rank(mask, i)] < f.cols["p_purchase_given_signup"][i].r))
  {
  }

  // ---------------------------------------------------------------- run_experiment

  /** `run_experiment`: users, then arms, then signups, then purchases. The user generator
      and the signup step both seed their generator with `cfg.seed`; the day draws use
      `cfg.seed + 999` and the purchase draws `cfg.seed + 1`. */
  function RunExperiment(n: nat, cfg: ExperimentConfig, env: Environment): (f: Frame)
    requires env.Sound() && Runnable(cfg)
    ensures f.Valid() && f.height == n
    ensures {"user_id", "variant", "signed_up", "purchased"} <= f.cols.Keys
  {
    var users := GenerateUsers(n, cfg.seed, env);
    var arms := AssignVariants(users, cfg.split, env.md5Hex).value;
    var signed := SignupFrame(arms, cfg, cfg.seed, env).value;
    PurchaseFrame(signed, cfg.purchaseGivenSignup, cfg.seed, env).value
  }

  /** Row i of a simulated experiment carries id i + 1 and the arm hashed from it. */
  lemma ExperimentArm(n: nat, cfg: ExperimentConfig, env: Environment, i: nat)
    requires env.Sound() && Runnable(cfg) && i < n
    ensures var f := RunExperiment(n, cfg, env);
            && f.cols["user_id"][i] == Int(i + 1)
            && f.cols["variant"][i] == Str(AssignVariant(env.md5Hex(i + 1), cfg.split))
  {
    var users := GenerateUsers(n, cfg.seed, env);
    var arms := AssignVariants(users, cfg.split, env.md5Hex).value;
    var signed := SignupFrame(arms, cfg, cfg.seed, env).value;
    SignupRows(arms, cfg, cfg.seed, env, i);
  }

  /** Row i of a simulated experiment has 0/1 signup and purchase outcomes, and no
      purchase without a signup. */
  lemma ExperimentOutcomes(n: nat, cfg: ExperimentConfig, env: Environment, i: nat)
    requires env.Sound() && Runnable(cfg) && i < n
    ensures var f := RunExperiment(n, cfg, env);
            && (f.cols["signed_up"][i] == Int(0) || f.cols["signed_up"][i] == Int(1))
            && (f.cols["purchased"][i] == Int(0) || f.cols["purchased"][i] == Int(1))
            && (f.cols["signed_up"][i] == Int(0) ==> f.cols["purchased"][i] == Int(0))
  {
    var users := GenerateUsers(n, cfg.seed, env);
    var arms := AssignVariants(users, cfg.split, env.md5Hex).value;
    var signed := SignupFrame(arms, cfg, cfg.seed, env).value;
    SignupRows(arms, cfg, cfg.seed, env, i);
    PurchaseRows(signed, cfg.purchaseGivenSignup, cfg.seed, env, i);
  }

  /** The signup outcome of a simulated experiment is a 0/1 column. */
  lemma SignupsBinary(n: nat, cfg: ExperimentConfig, env: Environment)
    requires env.Sound() && Runnable(cfg)
    ensures Binary(RunExperiment(n, cfg, env).cols["signed_up"])
  {
    forall i | 0 <= i < n
      ensures RunExperiment(n, cfg, env).cols["signed_up"][i] == Int(0)
              || RunExperiment(n, cfg, env).cols["signed_up"][i] == Int(1)
    {
      ExperimentOutcomes(n, cfg, env, i);
    }
  }
}
