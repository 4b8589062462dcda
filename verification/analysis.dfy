/** The analysis engine: per-arm counts, the Wald interval for the lift, the pooled
    two-proportion z-test and the sample-ratio-mismatch check. */
module Analysis {
  import opened Frames
  import opened Numeric

  /** Significance level `run_ab_analysis` uses for the interval. */
  const Alpha: real := 0.05
  /** Fixed pass threshold of the SRM check. */
  const SrmThreshold: real := 0.05
  /** The accepted spellings of the two-sided alternative. */
  const TwoSidedSpellings: set<string> := {"two-sided", "two_sided", "twosided"}

  datatype GroupStats = GroupStats(nA: int, nB: int, convA: int, convB: int, pA: real, pB: real) {
    /** What `compute_group_stats` guarantees: both arms non-empty, rate = conversions / size. */
    predicate Valid() {
      nA > 0 && nB > 0 && pA == convA as real / nA as real && pB == convB as real / nB as real
    }

    /** The conversions of each arm lie between none and all of its rows. */
    predicate Bounded() {
      0 <= convA <= nA && 0 <= convB <= nB
    }
  }

  datatype LiftCi = LiftCi(lift: real, se: real, ciLow: real, ciHigh: real, alpha: real, confLevel: real)

  datatype TestResult = TestResult(z: real, pValue: real, alternative: string, pooledRate: real, se0: real, lift: real)

  datatype SrmResult = SrmResult(nA: int, nB: int, expectedA: real, expectedB: real, chi2: real, pValue: real, passes: bool)

  /** The bundle `run_ab_analysis` returns. */
  datatype AbAnalysis = AbAnalysis(groupStats: GroupStats, liftCi: LiftCi, test: TestResult, srm: SrmResult)

  /** `df[group_col] == arm` */
  function LabelMask(group: seq<Value>, arm: string): (m: seq<bool>)
    ensures |m| == |group|
    ensures forall i :: 0 <= i < |group| ==> (m[i] <==> group[i] == Str(arm))
  {
    seq(|group|, i requires 0 <= i < |group| => group[i] == Str(arm))
  }

  /** The rows whose group cell carries `arm`. */
  function RowsLabelled(group: seq<Value>, arm: string): set<nat> {
    set i: nat | i < |group| && group[i] == Str(arm)
  }

  /** Counting the mask counts exactly the labelled rows. */
  lemma CountLabelled(group: seq<Value>, arm: string)
    ensures CountTrue(LabelMask(group, arm)) == |RowsLabelled(group, arm)|
  {
    CountTrueIsCardinality(LabelMask(group, arm));
    assert Selected(LabelMask(group, arm)) == RowsLabelled(group, arm);
  }

  /** How a summed outcome cell contributes: integer cells by value. */
  function OutcomeValue(v: Value): int {
    if v.Int? then v.i else 0
  }

  /** `outcome[mask].sum()` */
  function MaskedSum(outcome: seq<Value>, m: seq<bool>): int
    requires |outcome| == |m|
  {
    if m == [] then 0
    else MaskedSum(outcome[..|m| - 1], m[..|m| - 1]) + (if m[|m| - 1] then OutcomeValue(outcome[|m| - 1]) else 0)
  }

  /** With 0/1 outcomes, the conversions of a mask lie between none and all of its rows. */
  lemma {:induction false} MaskedSumBounds(outcome: seq<Value>, m: seq<bool>)
    requires |outcome| == |m| && Binary(outcome)
    ensures 0 <= MaskedSum(outcome, m) <= CountTrue(m)
  {
    if m != [] {
      MaskedSumBounds(outcome[..|m| - 1], m[..|m| - 1]);
    }
  }

  /** A count over a positive size is a rate in [0, 1]. */
  lemma RateInUnit(conv: int, n: int)
    requires 0 <= conv <= n && n > 0
    ensures 0.0 <= conv as real / n as real <= 1.0
  {
    var p := conv as real / n as real;
    assert p * n as real == conv as real;
  }

  /** The rows a mask selects whose outcome is 1. */
  function ConvertedMask(outcome: seq<Value>, m: seq<bool>): (c: seq<bool>)
    requires |outcome| == |m|
    ensures |c| == |m| && forall i :: 0 <= i < |m| ==> (c[i] <==> m[i] && outcome[i] == Int(1))
  {
    seq(|m|, i requires 0 <= i < |m| => m[i] && outcome[i] == Int(1))
  }

  /** On a 0/1 outcome, the masked sum counts the selected rows that converted. */
  lemma {:induction false} MaskedSumCountsConverted(outcome: seq<Value>, m: seq<bool>)
    requires |outcome| == |m| && Binary(outcome)
    ensures MaskedSum(outcome, m) == CountTrue(ConvertedMask(outcome, m))
  {
    if m != [] {
      var p, q := outcome[..|m| - 1], m[..|m| - 1];
      MaskedSumCountsConverted(p, q);
      assert ConvertedMask(outcome, m)[..|m| - 1] == ConvertedMask(p, q);
    }
  }

  /** On a 0/1 outcome, the masked sum is 0 exactly when no selected row converted. */
  lemma {:induction false} MaskedSumZero(outcome: seq<Value>, m: seq<bool>)
    requires |outcome| == |m| && Binary(outcome)
    ensures MaskedSum(outcome, m) == 0 <==> forall i :: 0 <= i < |m| && m[i] ==> outcome[i] == Int(0)
  {
    if m != [] {
      var p, q := outcome[..|m| - 1], m[..|m| - 1];
      MaskedSumZero(p, q);
      MaskedSumBounds(p, q);
    }
  }

  /** On a 0/1 outcome, the masked sum is the mask's count exactly when every selected row
      converted. */
  lemma {:induction false} MaskedSumFull(outcome: seq<Value>, m: seq<bool>)
    requires |outcome| == |m| && Binary(outcome)
    ensures MaskedSum(outcome, m) == CountTrue(m) <==> forall i :: 0 <= i < |m| && m[i] ==> outcome[i] == Int(1)
  {
    if m != [] {
      var p, q := outcome[..|m| - 1], m[..|m| - 1];
      MaskedSumFull(p, q);
      MaskedSumBounds(p, q);
    }
  }

  /** `compute_group_stats`: sizes and conversions of the rows labelled A and B. */
  function ComputeGroupStats(df: Frame, groupCol: string, outcomeCol: string,
                             labelA: string, labelB: string): (r: Result<GroupStats>)
    requires df.Valid()
    ensures r.Err? ==> r.error.MissingColumn? || r.error == EmptyGroup
    ensures (r.Err? && r.error.MissingColumn?) <==> groupCol !in df.cols || outcomeCol !in df.cols
    ensures r == Err(EmptyGroup) <==>
              && groupCol in df.cols && outcomeCol in df.cols
              && (RowsLabelled(df.cols[groupCol], labelA) == {} || RowsLabelled(df.cols[groupCol], labelB) == {})
    ensures r.Ok? ==> && r.value.Valid()
                      && r.value.nA == |RowsLabelled(df.cols[groupCol], labelA)|
                      && r.value.nB == |RowsLabelled(df.cols[groupCol], labelB)|
                      && r.value.convA == MaskedSum(df.cols[outcomeCol], LabelMask(df.cols[groupCol], labelA))
                      && r.value.convB == MaskedSum(df.cols[outcomeCol], LabelMask(df.cols[groupCol], labelB))
    ensures r.Ok? && Binary(df.cols[outcomeCol]) ==>
              && r.value.Bounded()
              && 0.0 <= r.value.pA <= 1.0 && 0.0 <= r.value.pB <= 1.0
  {
    if groupCol !in df.cols || outcomeCol !in df.cols then
      Err(MissingColumn(if groupCol !in df.cols then groupCol else outcomeCol))
    else
      var group, outcome := df.cols[groupCol], df.cols[outcomeCol];
      var mA, mB := LabelMask(group, labelA), LabelMask(group, labelB);
      CountLabelled(group, labelA);
      CountLabelled(group, labelB);
      var nA, nB := CountTrue(mA), CountTrue(mB);
      if nA == 0 || nB == 0 then Err(EmptyGroup)
      else
        var convA, convB := MaskedSum(outcome, mA), MaskedSum(outcome, mB);
        var s := GroupStats(nA, nB, convA, convB, convA as real / nA as real, convB as real / nB as real);
        if Binary(outcome) then
          MaskedSumBounds(outcome, mA);
          MaskedSumBounds(outcome, mB);
          RateInUnit(convA, nA);
          RateInUnit(convB, nB);
          Ok(s)
        else Ok(s)
  }

  /** Rows carrying neither arm count toward neither arm: with distinct labels,
      the two arm sizes and the unlabelled rows add up to the whole frame. */
  lemma OtherLabelsCountTowardNeither(df: Frame, groupCol: string, outcomeCol: string,
                                      labelA: string, labelB: string)
    requires df.Valid() && labelA != labelB
    requires ComputeGroupStats(df, groupCol, outcomeCol, labelA, labelB).Ok?
    ensures var s := ComputeGroupStats(df, groupCol, outcomeCol, labelA, labelB).value;
            var g := df.cols[groupCol];
            s.nA + s.nB + |set i: nat | i < |g| && g[i] != Str(labelA) && g[i] != Str(labelB)| == df.height
  {
    var g := df.cols[groupCol];
    var mA, mB := LabelMask(g, labelA), LabelMask(g, labelB);
    var mO := seq(|g|, i requires 0 <= i < |g| => g[i] != Str(labelA) && g[i] != Str(labelB));
    CountTrueThreeWay(mA, mB, mO);
    CountTrueIsCardinality(mO);
    assert Selected(mO) == set i: nat | i < |g| && g[i] != Str(labelA) && g[i] != Str(labelB);
  }

  /** The common rate under the null: all conversions over all rows. */
  function PooledRate(s: GroupStats): real
    requires s.Valid()
  {
    (s.convA + s.convB) as real / (s.nA + s.nB) as real
  }

  /** Variance of the difference under a common rate. */
  function PooledVariance(s: GroupStats): real
    requires s.Valid()
  {
    var p := PooledRate(s);
    p * (1.0 - p) * (1.0 / s.nA as real + 1.0 / s.nB as real)
  }

  function PooledSe(s: GroupStats, num: Numerics): real
    requires s.Valid()
  {
    num.sqrt(PooledVariance(s))
  }

  /** Variance of the difference from each arm's own rate (Wald). */
  function UnpooledVariance(s: GroupStats): real
    requires s.Valid()
  {
    s.pA * (1.0 - s.pA) / s.nA as real + s.pB * (1.0 - s.pB) / s.nB as real
  }

  /** `estimate_lift`: B minus A, with a symmetric interval of half-width zcrit * se. */
  function EstimateLift(s: GroupStats, alpha: real, num: Numerics): (r: LiftCi)
    requires s.Valid()
    ensures r.lift == s.pB - s.pA
    ensures r.se == num.sqrt(UnpooledVariance(s))
    ensures r.ciHigh - r.lift == r.lift - r.ciLow
    ensures r.ciHigh - r.ciLow == 2.0 * num.normPpf(1.0 - alpha / 2.0) * r.se
    ensures r.alpha == alpha && r.confLevel == 1.0 - alpha
  {
    var lift := s.pB - s.pA;
    var se := num.sqrt(UnpooledVariance(s));
    var zcrit := num.normPpf(1.0 - alpha / 2.0);
    LiftCi(lift, se, lift - zcrit * se, lift + zcrit * se, alpha, 1.0 - alpha)
  }

  /** For rates in [0, 1] and 0 < alpha <= 1, the standard error is non-negative and the
      interval contains the point estimate. */
  lemma IntervalContainsLift(s: GroupStats, alpha: real, num: Numerics)
    requires num.Sound() && s.Valid() && s.Bounded() && 0.0 < alpha <= 1.0
    ensures var r := EstimateLift(s, alpha, num);
            r.se >= 0.0 && r.ciLow <= r.lift <= r.ciHigh
  {
    RateInUnit(s.convA, s.nA);
    RateInUnit(s.convB, s.nB);
    BernoulliVarianceZero(s.pA, 1.0 / s.nA as real);
    BernoulliVarianceZero(s.pB, 1.0 / s.nB as real);
    assert UnpooledVariance(s) == s.pA * (1.0 - s.pA) * (1.0 / s.nA as real)
                                  + s.pB * (1.0 - s.pB) * (1.0 / s.nB as real);
    var r := EstimateLift(s, alpha, num);
    var zcrit := num.normPpf(1.0 - alpha / 2.0);
    assert zcrit >= 0.0;
    ProductFacts(zcrit, r.se);
  }

  /** Sign facts of a product. */
  lemma ProductFacts(x: real, y: real)
    ensures x >= 0.0 && y >= 0.0 ==> x * y >= 0.0
    ensures x * y == 0.0 <==> x == 0.0 || y == 0.0
  {
  }

  /** Dividing out a positive factor keeps the sign. */
  lemma SignOfProduct(x: real, t: real)
    requires t > 0.0 && x * t >= 0.0
    ensures x >= 0.0
  {
  }

  /** A weighted mean of two values lies between them. */
  lemma WeightedMeanBetween(a: real, b: real, wa: real, wb: real, m: real)
    requires wa > 0.0 && wb > 0.0 && a <= b
    requires m * (wa + wb) == a * wa + b * wb
    ensures a <= m <= b
  {
    var t := wa + wb;
    assert (m - a) * t == (b - a) * wb;
    assert (b - m) * t == (b - a) * wa;
    assert (b - a) * wb >= 0.0 && (b - a) * wa >= 0.0;
    SignOfProduct(m - a, t);
    SignOfProduct(b - m, t);
  }

  /** A rate times its size gives back the count. */
  lemma RateTimesSize(conv: int, n: int)
    requires n > 0
    ensures (conv as real / n as real) * n as real == conv as real
  {
  }

  /** The pooled rate is a weighted mean of the two arm rates: it lies between them. */
  lemma PooledBetween(s: GroupStats)
    requires s.Valid() && s.Bounded()
    ensures var p := PooledRate(s);
            && 0.0 <= p <= 1.0
            && (s.pA <= s.pB ==> s.pA <= p <= s.pB)
            && (s.pB <= s.pA ==> s.pB <= p <= s.pA)
  {
    var nA, nB := s.nA as real, s.nB as real;
    var p := PooledRate(s);
    RateInUnit(s.convA + s.convB, s.nA + s.nB);
    RateTimesSize(s.convA, s.nA);
    RateTimesSize(s.convB, s.nB);
    RateTimesSize(s.convA + s.convB, s.nA + s.nB);
    assert p * (nA + nB) == s.pA * nA + s.pB * nB;
    if s.pA <= s.pB {
      WeightedMeanBetween(s.pA, s.pB, nA, nB, p);
    } else {
      assert p * (nB + nA) == s.pB * nB + s.pA * nA;
      WeightedMeanBetween(s.pB, s.pA, nB, nA, p);
    }
  }

  predicate IsAlternative(alternative: string) {
    alternative == "greater" || alternative == "less" || alternative in TwoSidedSpellings
  }

  /** `test_lift`: the pooled z-test. The zero-variance check comes before the check of
      the alternative, so a degenerate sample reports DegenerateVariance whatever the
      alternative. */
  function TestLift(s: GroupStats, alternative: string, num: Numerics): (r: Result<TestResult>)
    requires s.Valid()
    ensures r.Err? <==> PooledSe(s, num) == 0.0 || !IsAlternative(alternative)
    ensures r.Err? ==> r.error == if PooledSe(s, num) == 0.0 then DegenerateVariance
                                  else InvalidAlternative(alternative)
    ensures r.Ok? ==> && r.value.lift == s.pB - s.pA
                      && r.value.se0 == PooledSe(s, num) != 0.0
                      && r.value.z * r.value.se0 == r.value.lift
                      && r.value.pooledRate == PooledRate(s)
                      && r.value.alternative == alternative
    ensures r.Ok? && alternative == "greater" ==> r.value.pValue == 1.0 - num.normCdf(r.value.z)
    ensures r.Ok? && alternative == "less" ==> r.value.pValue == num.normCdf(r.value.z)
    ensures r.Ok? && alternative in TwoSidedSpellings ==>
              r.value.pValue == 2.0 * (1.0 - num.normCdf(Abs(r.value.z)))
  {
    var lift := s.pB - s.pA;
    var pooled := PooledRate(s);
    var se0 := PooledSe(s, num);
    if se0 == 0.0 then Err(DegenerateVariance)
    else
      var z := lift / se0;
      if alternative == "greater" then
        Ok(TestResult(z, 1.0 - num.normCdf(z), alternative, pooled, se0, lift))
      else if alternative == "less" then
        Ok(TestResult(z, num.normCdf(z), alternative, pooled, se0, lift))
      else if alternative in TwoSidedSpellings then
        Ok(TestResult(z, 2.0 * (1.0 - num.normCdf(Abs(z))), alternative, pooled, se0, lift))
      else Err(InvalidAlternative(alternative))
  }

  /** p (1 - p) w, for p in [0, 1] and w > 0, is non-negative and zero exactly at p = 0 or 1. */
  lemma BernoulliVarianceZero(p: real, w: real)
    requires 0.0 <= p <= 1.0 && w > 0.0
    ensures p * (1.0 - p) * w >= 0.0
    ensures p * (1.0 - p) * w == 0.0 <==> p == 0.0 || p == 1.0
  {
    var q := p * (1.0 - p);
    ProductFacts(p, 1.0 - p);
    ProductFacts(q, w);
  }

  /** The pooled variance vanishes exactly when the pooled rate is 0 or 1. */
  lemma PooledVarianceZero(s: GroupStats)
    requires s.Valid() && s.Bounded()
    ensures PooledVariance(s) >= 0.0
    ensures PooledVariance(s) == 0.0 <==> PooledRate(s) == 0.0 || PooledRate(s) == 1.0
  {
    PooledBetween(s);
    var w := 1.0 / s.nA as real + 1.0 / s.nB as real;
    assert w > 0.0;
    BernoulliVarianceZero(PooledRate(s), w);
  }

  /** test_lift fails for degenerate variance exactly when the pooled rate is 0 or 1, that is,
      when no row of either arm converted or every row of both arms did. */
  lemma DegenerateExactlyWhenConstant(s: GroupStats, alternative: string, num: Numerics)
    requires num.Sound() && s.Valid() && s.Bounded()
    ensures TestLift(s, alternative, num) == Err(DegenerateVariance)
            <==> PooledRate(s) == 0.0 || PooledRate(s) == 1.0
    ensures PooledRate(s) == 0.0 || PooledRate(s) == 1.0
            <==> (s.convA == 0 && s.convB == 0) || (s.convA == s.nA && s.convB == s.nB)
  {
    PooledVarianceZero(s);
    var n := (s.nA + s.nB) as real;
    var c := (s.convA + s.convB) as real;
    assert PooledRate(s) * n == c;
    assert PooledRate(s) == 0.0 <==> c == 0.0;
    assert PooledRate(s) == 1.0 <==> c == n;
    if !IsAlternative(alternative) && PooledSe(s, num) != 0.0 {
      assert TestLift(s, alternative, num) == Err(InvalidAlternative(alternative));
    }
  }

  /** On a 0/1 outcome, each arm's conversions are the number of its rows whose outcome is 1. */
  lemma ConversionsCountConverted(df: Frame, groupCol: string, outcomeCol: string,
                                  labelA: string, labelB: string)
    requires df.Valid() && outcomeCol in df.cols && Binary(df.cols[outcomeCol])
    requires ComputeGroupStats(df, groupCol, outcomeCol, labelA, labelB).Ok?
    ensures var s := ComputeGroupStats(df, groupCol, outcomeCol, labelA, labelB).value;
            var g, o := df.cols[groupCol], df.cols[outcomeCol];
            && s.convA == |set i: nat | i < df.height && g[i] == Str(labelA) && o[i] == Int(1)|
            && s.convB == |set i: nat | i < df.height && g[i] == Str(labelB) && o[i] == Int(1)|
  {
    var g, o := df.cols[groupCol], df.cols[outcomeCol];
    var cA, cB := ConvertedMask(o, LabelMask(g, labelA)), ConvertedMask(o, LabelMask(g, labelB));
    MaskedSumCountsConverted(o, LabelMask(g, labelA));
    MaskedSumCountsConverted(o, LabelMask(g, labelB));
    CountTrueIsCardinality(cA);
    CountTrueIsCardinality(cB);
    assert Selected(cA) == set i: nat | i < df.height && g[i] == Str(labelA) && o[i] == Int(1);
    assert Selected(cB) == set i: nat | i < df.height && g[i] == Str(labelB) && o[i] == Int(1);
  }

  /** On a 0/1 outcome, test_lift fails for degenerate variance exactly when the outcome is
      constant over the rows of both arms: no labelled row converted, or every one did. */
  lemma DegenerateExactlyWhenOutcomeConstant(df: Frame, groupCol: string, outcomeCol: string,
                                             labelA: string, labelB: string,
                                             alternative: string, num: Numerics)
    requires num.Sound() && df.Valid() && outcomeCol in df.cols && Binary(df.cols[outcomeCol])
    requires ComputeGroupStats(df, groupCol, outcomeCol, labelA, labelB).Ok?
    ensures var s := ComputeGroupStats(df, groupCol, outcomeCol, labelA, labelB).value;
            var g, o := df.cols[groupCol], df.cols[outcomeCol];
            TestLift(s, alternative, num) == Err(DegenerateVariance) <==>
              || (forall i :: 0 <= i < df.height && (g[i] == Str(labelA) || g[i] == Str(labelB)) ==> o[i] == Int(0))
              || (forall i :: 0 <= i < df.height && (g[i] == Str(labelA) || g[i] == Str(labelB)) ==> o[i] == Int(1))
  {
    var s := ComputeGroupStats(df, groupCol, outcomeCol, labelA, labelB).value;
    var g, o := df.cols[groupCol], df.cols[outcomeCol];
    var mA, mB := LabelMask(g, labelA), LabelMask(g, labelB);
    CountLabelled(g, labelA);
    CountLabelled(g, labelB);
    MaskedSumZero(o, mA);
    MaskedSumZero(o, mB);
    MaskedSumFull(o, mA);
    MaskedSumFull(o, mB);
    DegenerateExactlyWhenConstant(s, alternative, num);
  }

  /** z carries the sign of the lift. */
  lemma ZHasSignOfLift(s: GroupStats, alternative: string, num: Numerics)
    requires num.Sound() && s.Valid() && s.Bounded()
    requires TestLift(s, alternative, num).Ok?
    ensures var t := TestLift(s, alternative, num).value;
            (t.z > 0.0 <==> t.lift > 0.0) && (t.z < 0.0 <==> t.lift < 0.0) && (t.z == 0.0 <==> t.lift == 0.0)
  {
    PooledVarianceZero(s);
    var t := TestLift(s, alternative, num).value;
    assert t.se0 > 0.0;
    if t.z > 0.0 { assert t.z * t.se0 > 0.0; }
    if t.z < 0.0 { assert t.z * t.se0 < 0.0; }
  }

  /** The two one-sided p-values of one sample are complementary. */
  lemma OneSidedPValuesComplement(s: GroupStats, num: Numerics)
    requires s.Valid() && TestLift(s, "greater", num).Ok?
    ensures TestLift(s, "less", num).Ok?
    ensures TestLift(s, "greater", num).value.pValue + TestLift(s, "less", num).value.pValue == 1.0
  {
  }

  /** All three spellings of "two-sided" give the same test; any unknown alternative is refused. */
  lemma TwoSidedSpellingsAgree(s: GroupStats, alternative: string, num: Numerics)
    requires s.Valid() && PooledSe(s, num) != 0.0
    ensures alternative in TwoSidedSpellings ==>
              && TestLift(s, alternative, num).Ok?
              && TestLift(s, alternative, num).value == TestLift(s, "two-sided", num).value.(alternative := alternative)
    ensures !IsAlternative(alternative) ==> TestLift(s, alternative, num) == Err(InvalidAlternative(alternative))
  {
  }

  /** Every p-value the test reports is a probability. */
  lemma PValueIsProbability(s: GroupStats, alternative: string, num: Numerics)
    requires num.Sound() && s.Valid() && TestLift(s, alternative, num).Ok?
    ensures 0.0 <= TestLift(s, alternative, num).value.pValue <= 1.0
  {
    var t := TestLift(s, alternative, num).value;
    var c := num.normCdf(Abs(t.z));
    assert 0.5 <= c <= 1.0;
  }

  /** A one-sided "greater" p-value below one half needs a positive lift: a sample in which
      B does no better than A never rejects at any level up to 0.5. */
  lemma SmallGreaterPValueNeedsPositiveLift(s: GroupStats, num: Numerics)
    requires num.Sound() && s.Valid() && s.Bounded() && TestLift(s, "greater", num).Ok?
    ensures TestLift(s, "greater", num).value.pValue < 0.5 ==> s.pB - s.pA > 0.0
  {
    var t := TestLift(s, "greater", num).value;
    ZHasSignOfLift(s, "greater", num);
    if t.z <= 0.0 {
      assert num.normCdf(t.z) <= 0.5;
    }
  }

  lemma Distribute(n: real, a: real, b: real)
    ensures n * a + n * b == n * (a + b)
  {
  }

  /** `check_srm`: observed arm sizes against the sizes the nominal split expects. */
  function CheckSrm(df: Frame, groupCol: string, split: (real, real), labels: (string, string),
                    num: Numerics): (r: Result<SrmResult>)
    requires df.Valid()
    ensures r.Err? <==> || groupCol !in df.cols
                        || (RowsLabelled(df.cols[groupCol], labels.0) == {}
                            && RowsLabelled(df.cols[groupCol], labels.1) == {})
    ensures r.Err? ==> r.error == if groupCol !in df.cols then MissingColumn(groupCol) else EmptyPopulation
    ensures r.Ok? ==> && r.value.nA == |RowsLabelled(df.cols[groupCol], labels.0)|
                      && r.value.nB == |RowsLabelled(df.cols[groupCol], labels.1)|
                      && r.value.expectedA == (r.value.nA + r.value.nB) as real * split.0
                      && r.value.expectedB == (r.value.nA + r.value.nB) as real * split.1
                      && num.chiSquare(r.value.nA as real, r.value.nB as real, r.value.expectedA, r.value.expectedB)
                         == ChiSquare(r.value.chi2, r.value.pValue)
                      && (r.value.passes <==> r.value.pValue >= SrmThreshold)
  {
    if groupCol !in df.cols then Err(MissingColumn(groupCol))
    else
      var group := df.cols[groupCol];
      CountLabelled(group, labels.0);
      CountLabelled(group, labels.1);
      var nA, nB := CountTrue(LabelMask(group, labels.0)), CountTrue(LabelMask(group, labels.1));
      var nTotal := nA + nB;
      if nTotal == 0 then Err(EmptyPopulation)
      else
        var expA, expB := nTotal as real * split.0, nTotal as real * split.1;
        var res := num.chiSquare(nA as real, nB as real, expA, expB);
        Ok(SrmResult(nA, nB, expA, expB, res.statistic, res.pValue, res.pValue >= SrmThreshold))
  }

  /** When the nominal split sums to 1, the expected counts share out exactly the observed total. */
  lemma ExpectedCountsShareTotal(df: Frame, groupCol: string, split: (real, real),
                                 labels: (string, string), num: Numerics)
    requires df.Valid() && CheckSrm(df, groupCol, split, labels, num).Ok?
    requires split.0 + split.1 == 1.0
    ensures var r := CheckSrm(df, groupCol, split, labels, num).value;
            r.expectedA + r.expectedB == (r.nA + r.nB) as real
  {
    var r := CheckSrm(df, groupCol, split, labels, num).value;
    Distribute((r.nA + r.nB) as real, split.0, split.1);
  }

  /** The check's p-value is a probability. */
  lemma SrmPValueIsProbability(df: Frame, groupCol: string, split: (real, real),
                               labels: (string, string), num: Numerics)
    requires num.Sound() && df.Valid() && CheckSrm(df, groupCol, split, labels, num).Ok?
    ensures 0.0 <= CheckSrm(df, groupCol, split, labels, num).value.pValue <= 1.0
  {
  }

  /** `run_ab_analysis`: the four steps on arms "A"/"B" of column `variant`, at alpha 0.05,
      with the one-sided "greater" test and the 50/50 SRM check. */
  function RunAbAnalysis(df: Frame, outcomeCol: string, num: Numerics): (r: Result<AbAnalysis>)
    requires df.Valid()
    ensures var g := ComputeGroupStats(df, "variant", outcomeCol, "A", "B");
            && (g.Err? ==> r == Err(g.error))
            && (g.Ok? ==> var t := TestLift(g.value, "greater", num);
                          && (t.Err? ==> r == Err(t.error))
                          && (t.Ok? ==> r.Ok? && r.value.groupStats == g.value && r.value.test == t.value))
    ensures r.Ok? ==> && r.value.groupStats.Valid()
                      && r.value.liftCi == EstimateLift(r.value.groupStats, Alpha, num)
                      && CheckSrm(df, "variant", (0.5, 0.5), ("A", "B"), num) == Ok(r.value.srm)
                      && r.value.srm.nA == r.value.groupStats.nA
                      && r.value.srm.nB == r.value.groupStats.nB
                      && r.value.srm.expectedA + r.value.srm.expectedB
                         == (r.value.groupStats.nA + r.value.groupStats.nB) as real
                      && r.value.test.lift == r.value.liftCi.lift
                      && (r.value.srm.passes <==> r.value.srm.pValue >= SrmThreshold)
  {
    var g := ComputeGroupStats(df, "variant", outcomeCol, "A", "B");
    if g.Err? then Err(g.error)
    else
      var s := g.value;
      var lift := EstimateLift(s, Alpha, num);
      var t := TestLift(s, "greater", num);
      if t.Err? then Err(t.error)
      else
        var srm := CheckSrm(df, "variant", (0.5, 0.5), ("A", "B"), num);
        assert srm.Ok?;
        Ok(AbAnalysis(s, lift, t.value, srm.value))
  }

  /** On a 0/1 outcome, a successful analysis reports an interval around its estimate, a
      p-value that is a probability, and a one-sided p-value below one half only for a
      positive lift. */
  lemma AnalysisFacts(df: Frame, outcomeCol: string, num: Numerics)
    requires num.Sound() && df.Valid() && outcomeCol in df.cols && Binary(df.cols[outcomeCol])
    requires RunAbAnalysis(df, outcomeCol, num).Ok?
    ensures var a := RunAbAnalysis(df, outcomeCol, num).value;
            && a.groupStats.Bounded()
            && a.liftCi.se >= 0.0 && a.liftCi.ciLow <= a.liftCi.lift <= a.liftCi.ciHigh
            && 0.0 <= a.test.pValue <= 1.0
            && (a.test.pValue < 0.5 ==> a.liftCi.lift > 0.0)
  {
    var a := RunAbAnalysis(df, outcomeCol, num).value;
    IntervalContainsLift(a.groupStats, Alpha, num);
    PValueIsProbability(a.groupStats, "greater", num);
    SmallGreaterPValueNeedsPositiveLift(a.groupStats, num);
  }
}
