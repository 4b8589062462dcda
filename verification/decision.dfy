/** The ship / do-not-ship rule: the signup lift must be significant and practically
    large on a valid randomisation, and purchases among signups must not be clearly worse. */
module Decision {
  import opened Frames
  import opened Numeric
  import opened Analysis

  const Ship: string := "SHIP"
  const DoNotShip: string := "DO NOT SHIP"

  /** What `decision_clean` decides, with the analyses behind it; the formatted rates and
      the fixed notes are presentation and are not part of the model. */
  datatype Verdict = Verdict(
    decision: string,
    srmOk: bool, statOk: bool, practicalOk: bool, primaryOk: bool, guardrailOk: bool,
    signup: AbAnalysis, purchase: AbAnalysis, guardrail: AbAnalysis)

  /** `df[df["signed_up"] == 1]`: the rows of the users who signed up; raises KeyError when
      there is no `signed_up` column. */
  function SignedUpRows(df: Frame): (r: Result<Frame>)
    requires df.Valid()
    ensures r.Err? <==> "signed_up" !in df.cols
    ensures r.Err? ==> r.error == MissingColumn("signed_up")
    ensures r.Ok? ==> && r.value == FilterRows(df, EqualsOne(df.cols["signed_up"]))
                      && r.value.height == CountTrue(EqualsOne(df.cols["signed_up"]))
  {
    if "signed_up" !in df.cols then Err(MissingColumn("signed_up"))
    else Ok(FilterRows(df, EqualsOne(df.cols["signed_up"])))
  }

  /** The guardrail frame holds exactly the signed-up users' rows: one row per user whose
      `signed_up` is 1, each with all its cells, in the original order (`RankIncreasing`),
      and no row whose `signed_up` is not 1. */
  lemma GuardrailRowsSignedUp(df: Frame)
    requires df.Valid() && "signed_up" in df.cols
    ensures var s := df.cols["signed_up"];
            var m := EqualsOne(s);
            var kept := SignedUpRows(df).value;
            && kept.height == |set i: nat | i < df.height && NumEq(s[i], 1)|
            && (forall c, i :: c in df.cols && 0 <= i < df.height && m[i] ==>
                  kept.cols[c][Rank(m, i)] == df.cols[c][i])
            && (forall j :: 0 <= j < kept.height ==> NumEq(kept.cols["signed_up"][j], 1))
  {
    var s := df.cols["signed_up"];
    var m := EqualsOne(s);
    var kept := SignedUpRows(df).value;
    FilterRowsKeeps(df, m);
    assert Selected(m) == set i: nat | i < df.height && NumEq(s[i], 1);
    forall j | 0 <= j < kept.height
      ensures NumEq(kept.cols["signed_up"][j], 1)
    {
      SelectFrom(s, m, j);
    }
  }

  /** The verdict from the three analyses: significant when the signup interval lies
      above zero, practical when it lies above the threshold, primary when both hold on a
      randomisation that passes SRM, guardrail unless the purchase-given-signup interval
      lies entirely below zero; ship when primary and guardrail both hold. */
  function Decide(signup: AbAnalysis, purchase: AbAnalysis, guardrail: AbAnalysis, practicalLift: real)
    : (v: Verdict)
    ensures v.signup == signup && v.purchase == purchase && v.guardrail == guardrail
    ensures v.srmOk == signup.srm.passes
    ensures v.statOk <==> signup.liftCi.ciLow > 0.0
    ensures v.practicalOk <==> signup.liftCi.ciLow > practicalLift
    ensures v.primaryOk <==> v.srmOk && v.statOk && v.practicalOk
    ensures v.guardrailOk <==> guardrail.liftCi.ciHigh >= 0.0
    ensures v.decision == Ship || v.decision == DoNotShip
    ensures v.decision == Ship <==> v.primaryOk && v.guardrailOk
  {
    var srmOk := signup.srm.passes;
    var statOk := signup.liftCi.ciLow > 0.0;
    var practicalOk := signup.liftCi.ciLow > practicalLift;
    var primaryOk := srmOk && statOk && practicalOk;
    var guardrailOk := !(guardrail.liftCi.ciHigh < 0.0);
    var ship := primaryOk && guardrailOk;
    Verdict(if ship then Ship else DoNotShip, srmOk, statOk, practicalOk, primaryOk, guardrailOk,
            signup, purchase, guardrail)
  }

  /** `decision_clean(df, practical_lift)`, whose threshold defaults to 0.005: the signup
      analysis, the purchase analysis and the purchase analysis among signups, in that
      order, the first that raises ending the call; then the verdict. */
  function DecisionClean(df: Frame, practicalLift: real, num: Numerics): (r: Result<Verdict>)
    requires df.Valid()
    ensures var s := RunAbAnalysis(df, "signed_up", num);
            && (s.Err? ==> r == Err(s.error))
            && (s.Ok? ==> var p := RunAbAnalysis(df, "purchased", num);
                          && (p.Err? ==> r == Err(p.error))
                          && (p.Ok? ==> "signed_up" in df.cols && SignedUpRows(df).Ok? &&
                                        var q := RunAbAnalysis(SignedUpRows(df).value, "purchased", num);
                                        && (q.Err? ==> r == Err(q.error))
                                        && (q.Ok? ==> r == Ok(Decide(s.value, p.value, q.value, practicalLift)))))
  {
    var signup := RunAbAnalysis(df, "signed_up", num);
    if signup.Err? then Err(signup.error)
    else
      var purchase := RunAbAnalysis(df, "purchased", num);
      if purchase.Err? then Err(purchase.error)
      else
        // the signup analysis has read the `signed_up` column, so the filter cannot raise
        assert "signed_up" in df.cols;
        var guardrail := RunAbAnalysis(SignedUpRows(df).value, "purchased", num);
        if guardrail.Err? then Err(guardrail.error)
        else Ok(Decide(signup.value, purchase.value, guardrail.value, practicalLift))
  }

  /** With a non-negative threshold, a practically large lift is also a significant one. */
  lemma PracticalImpliesSignificant(signup: AbAnalysis, purchase: AbAnalysis, guardrail: AbAnalysis,
                                    practicalLift: real)
    requires practicalLift >= 0.0
    ensures var v := Decide(signup, purchase, guardrail, practicalLift);
            v.practicalOk ==> v.statOk
    ensures var v := Decide(signup, purchase, guardrail, practicalLift);
            v.primaryOk <==> v.srmOk && v.practicalOk
  {
  }

  /** A negative threshold is weaker than significance: then the significance test alone
      decides the primary criterion. */
  lemma NegativeThresholdDefersToSignificance(signup: AbAnalysis, purchase: AbAnalysis,
                                              guardrail: AbAnalysis, practicalLift: real)
    requires practicalLift < 0.0
    ensures var v := Decide(signup, purchase, guardrail, practicalLift);
            v.primaryOk <==> v.srmOk && v.statOk
  {
  }

  /** Raising the threshold never turns "DO NOT SHIP" into "SHIP". */
  lemma StricterThresholdNeverShipsMore(signup: AbAnalysis, purchase: AbAnalysis, guardrail: AbAnalysis,
                                        t: real, t': real)
    requires t <= t'
    ensures Decide(signup, purchase, guardrail, t').decision == Ship
            ==> Decide(signup, purchase, guardrail, t).decision == Ship
  {
  }

  /** The purchase analysis over all users plays no part in the decision. */
  lemma PurchaseDoesNotDecide(signup: AbAnalysis, purchase: AbAnalysis, purchase': AbAnalysis,
                              guardrail: AbAnalysis, practicalLift: real)
    ensures Decide(signup, purchase, guardrail, practicalLift).decision
            == Decide(signup, purchase', guardrail, practicalLift).decision
  {
  }

  /** On 0/1 signups, shipping means the estimated signup lift exceeds the practical
      threshold and is positive, the randomisation passed SRM, and the estimated
      purchase-given-signup lift is not entirely below zero. */
  lemma ShipMeansLargeLift(df: Frame, practicalLift: real, num: Numerics)
    requires num.Sound() && df.Valid() && "signed_up" in df.cols && Binary(df.cols["signed_up"])
    requires DecisionClean(df, practicalLift, num).Ok?
    requires DecisionClean(df, practicalLift, num).value.decision == Ship
    ensures var v := DecisionClean(df, practicalLift, num).value;
            && v.signup.liftCi.lift > practicalLift
            && v.signup.liftCi.lift > 0.0
            && v.signup.srm.passes
            && v.guardrail.liftCi.ciHigh >= 0.0
  {
    AnalysisFacts(df, "signed_up", num);
  }
}
