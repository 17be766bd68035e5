/**
 * The estimator suite of `src/evaluate.py`: regression formulas built as
 * strings, the four estimators that choose them, and the extraction of the
 * treatment coefficient from a fit. The OLS fit itself is the `Fitter`
 * parameter; everything around it is modelled.
 */
module Estimators {
  import opened Frames

  const CovariateSuffix: string := " + covariate"
  const TreatmentTerm: string := "is_treatment"
  const CupedColumn: string := "post_experiment_cuped"
  const CupedOutcomeFormula: string := "post_experiment_cuped ~ is_treatment"

  /** `build_formula`: appends the covariate term when asked to. */
  function BuildFormula(base: string, covariate: bool): (f: string)
    ensures |f| == |base| + (if covariate then |CovariateSuffix| else 0)
    ensures f[..|base|] == base
    ensures f[|base|..] == if covariate then CovariateSuffix else ""
  {
    if covariate then base + CovariateSuffix else base
  }

  /**
   * A regression specification as structured data: the outcome column and
   * the predictor columns, rendered in the formula syntax the library reads.
   */
  datatype RegressionSpec = RegressionSpec(target: string, predictors: seq<string>)

  function Join(terms: seq<string>): string
  {
    if |terms| == 0 then ""
    else if |terms| == 1 then terms[0]
    else terms[0] + " + " + Join(terms[1..])
  }

  function Render(spec: RegressionSpec): string
  {
    spec.target + " ~ " + Join(spec.predictors)
  }

  lemma {:induction false} JoinAppend(terms: seq<string>, t: string)
    requires |terms| > 0
    ensures Join(terms + [t]) == Join(terms) + " + " + t
  {
    if |terms| > 1 {
      assert (terms + [t])[1..] == terms[1..] + [t];
      JoinAppend(terms[1..], t);
    } else {
      assert (terms + [t])[1..] == [t];
    }
  }

  /** The specification with `covariate` appended to the predictors when asked to. */
  function WithCovariate(spec: RegressionSpec, covariate: bool): RegressionSpec
  {
    RegressionSpec(spec.target, spec.predictors + if covariate then ["covariate"] else [])
  }

  /**
   * Appending the covariate suffix to a rendered formula is the same as
   * rendering the specification with `covariate` as one more predictor.
   */
  lemma BuildFormulaRenders(spec: RegressionSpec, covariate: bool)
    requires |spec.predictors| > 0
    ensures BuildFormula(Render(spec), covariate) == Render(WithCovariate(spec, covariate))
  {
    if covariate {
      JoinAppend(spec.predictors, "covariate");
    } else {
      assert spec.predictors + [] == spec.predictors;
    }
  }

  /** The four estimators of the module, by their Python function names. */
  datatype Estimator = TTest | DiffInDiff | Autoregression | Cuped {

    function Name(): string
    {
      match this
      case TTest => "t_test"
      case DiffInDiff => "diff_in_diff"
      case Autoregression => "autoregression"
      case Cuped => "cuped"
    }

    /** The structured form of each estimator's fixed base formula. */
    function BaseSpec(): RegressionSpec
    {
      match this
      case TTest => RegressionSpec("post_experiment", ["is_treatment"])
      case DiffInDiff => RegressionSpec("change", ["is_treatment"])
      case Autoregression => RegressionSpec("post_experiment", ["pre_experiment", "is_treatment"])
      case Cuped => RegressionSpec("post_experiment", ["pre_experiment"])
    }

    /** The base formula string each estimator passes to `build_formula`. */
    function BaseFormula(): string
    {
      match this
      case TTest => "post_experiment ~ is_treatment"
      case DiffInDiff => "change ~ is_treatment"
      case Autoregression => "post_experiment ~ pre_experiment + is_treatment"
      case Cuped => "post_experiment ~ pre_experiment"
    }

    /** The formula fitted (for CUPED: the first-stage formula). */
    function Formula(covariate: bool): (f: string)
      ensures f == Render(WithCovariate(BaseSpec(), covariate))
    {
      BaseFormulaRenders(this);
      BuildFormulaRenders(BaseSpec(), covariate);
      BuildFormula(BaseFormula(), covariate)
    }
  }

  /** Each base formula string is the rendering of its structured form. */
  lemma BaseFormulaRenders(e: Estimator)
    ensures e.BaseFormula() == Render(e.BaseSpec())
  {
    match e
    case TTest => TTestFormulaRenders();
    case DiffInDiff => DiffInDiffFormulaRenders();
    case Autoregression => AutoregressionFormulaRenders();
    case Cuped => CupedFormulaRenders();
  }

  lemma TTestFormulaRenders()
    ensures TTest.BaseFormula() == Render(TTest.BaseSpec())
  {
    assert Join(["is_treatment"]) == "is_treatment";
  }

  lemma DiffInDiffFormulaRenders()
    ensures DiffInDiff.BaseFormula() == Render(DiffInDiff.BaseSpec())
  {
    assert Join(["is_treatment"]) == "is_treatment";
  }

  lemma AutoregressionFormulaRenders()
    ensures Autoregression.BaseFormula() == Render(Autoregression.BaseSpec())
  {
    var p := ["pre_experiment", "is_treatment"];
    assert p[1..] == ["is_treatment"];
    assert Join(p[1..]) == "is_treatment";
    assert Join(p) == "pre_experiment" + " + " + "is_treatment";
  }

  lemma CupedFormulaRenders()
    ensures Cuped.BaseFormula() == Render(Cuped.BaseSpec())
  {
    assert Join(["pre_experiment"]) == "pre_experiment";
  }

  /**
   * What each estimator regresses: the covariate is a predictor exactly when
   * asked for, `is_treatment` is one for every estimator but CUPED's first
   * stage, and the CUPED second stage regresses the adjusted outcome on
   * `is_treatment` alone whatever the flag.
   */
  lemma EstimatorFormulas(e: Estimator, covariate: bool)
    ensures var spec := WithCovariate(e.BaseSpec(), covariate);
      && ("covariate" in spec.predictors <==> covariate)
      && (TreatmentTerm in spec.predictors <==> e != Cuped)
      && spec.target == (if e == DiffInDiff then "change" else "post_experiment")
      && CupedOutcomeFormula == Render(RegressionSpec(CupedColumn, [TreatmentTerm]))
  {
    var spec := WithCovariate(e.BaseSpec(), covariate);
    if covariate {
      assert spec.predictors[|spec.predictors| - 1] == "covariate";
    }
    if e == Cuped {
      assert TreatmentTerm != "pre_experiment" && TreatmentTerm != "covariate";
    } else {
      assert TreatmentTerm in e.BaseSpec().predictors;
    }
  }

  /** The four numbers reported for the treatment coefficient. */
  datatype TreatmentResult = TreatmentResult(pValue: real, estimate: real, ciLower: real, ciUpper: real)

  predicate HasTreatmentTerm(m: Fit)
  {
    TreatmentTerm in m.pvalues && TreatmentTerm in m.params && TreatmentTerm in m.confInt
  }

  /** `t` carries the fit's p-value, estimate and interval ends for `is_treatment`. */
  predicate Reports(m: Fit, t: TreatmentResult)
    requires HasTreatmentTerm(m)
  {
    && t.pValue == m.pvalues[TreatmentTerm]
    && t.estimate == m.params[TreatmentTerm]
    && t.ciLower == m.confInt[TreatmentTerm].0
    && t.ciUpper == m.confInt[TreatmentTerm].1
  }

  /** `extract_treatment_results`: a KeyError when the fit has no `is_treatment` term. */
  function ExtractTreatmentResults(m: Fit): (r: Result<TreatmentResult>)
    ensures r.Ok? <==> HasTreatmentTerm(m)
    ensures r.Ok? ==> Reports(m, r.value)
    ensures r.Err? ==> r.error == MissingTerm(TreatmentTerm)
  {
    if TreatmentTerm !in m.pvalues || TreatmentTerm !in m.params || TreatmentTerm !in m.confInt then
      Err(MissingTerm(TreatmentTerm))
    else
      var ci := m.confInt[TreatmentTerm];
      Ok(TreatmentResult(m.pvalues[TreatmentTerm], m.params[TreatmentTerm], ci.0, ci.1))
  }

  /** `model.resid + np.mean(df["post_experiment"])`. */
  function CupedValues(resid: seq<real>, post: seq<real>): (v: seq<real>)
    requires |post| > 0
    ensures |v| == |resid|
    ensures forall i :: 0 <= i < |resid| ==> v[i] - resid[i] == Mean(post)
  {
    Shifted(resid, Mean(post))
  }

  /**
   * The CUPED outcome keeps the mean of the original outcome shifted by the
   * mean residual; an OLS fit with an intercept has residuals summing to
   * zero, and then the adjusted outcome has the original outcome's mean.
   */
  lemma CupedValuesMean(resid: seq<real>, post: seq<real>)
    requires |resid| > 0 && |post| > 0
    ensures Mean(CupedValues(resid, post)) == Mean(resid) + Mean(post)
    ensures Sum(resid) == 0.0 ==> Mean(CupedValues(resid, post)) == Mean(post)
  {
    MeanShifted(resid, Mean(post));
  }

  /**
   * The frame the CUPED second stage is fitted on, when it can be built: the
   * input frame with `post_experiment_cuped` added. Missing outcome column,
   * an empty one (whose mean is NaN) and residuals that do not line up with
   * the rows are errors, in that order.
   */
  function CupedFrame(df: Frame, stage1: Fit): (r: Result<Frame>)
    requires df.Valid()
    ensures "post_experiment" !in df.columns ==> r == Err(MissingColumn("post_experiment"))
    ensures "post_experiment" in df.columns && df.rows == 0 ==> r == Err(EmptyColumn("post_experiment"))
    ensures "post_experiment" in df.columns && df.rows > 0 && |stage1.resid| != df.rows ==> r == Err(ResidualLengthMismatch)
    ensures r.Ok? <==> "post_experiment" in df.columns && df.rows > 0 && |stage1.resid| == df.rows
    ensures r.Ok? ==>
      && r.value.Valid() && r.value.rows == df.rows
      && r.value.columns.Keys == df.columns.Keys + {CupedColumn}
      && (forall c :: c in df.columns && c != CupedColumn ==> r.value.columns[c] == df.columns[c])
      && (forall i :: 0 <= i < df.rows ==>
            r.value.columns[CupedColumn][i] == stage1.resid[i] + Mean(df.columns["post_experiment"]))
  {
    if "post_experiment" !in df.columns then Err(MissingColumn("post_experiment"))
    else if df.rows == 0 then Err(EmptyColumn("post_experiment"))
    else if |stage1.resid| != df.rows then Err(ResidualLengthMismatch)
    else Ok(df.Assign(CupedColumn, CupedValues(stage1.resid, df.columns["post_experiment"])))
  }

  /**
   * CUPED's three stages all succeed: the first-stage fit, the adjusted
   * frame, and the second-stage fit, which has an `is_treatment` term.
   */
  ghost predicate CupedStagesOk(df: Frame, covariate: bool, fit: Fitter)
    requires df.Valid()
  {
    && fit(df, Cuped.Formula(covariate)).Ok?
    && CupedFrame(df, fit(df, Cuped.Formula(covariate)).value).Ok?
    && fit(CupedFrame(df, fit(df, Cuped.Formula(covariate)).value).value, CupedOutcomeFormula).Ok?
    && HasTreatmentTerm(fit(CupedFrame(df, fit(df, Cuped.Formula(covariate)).value).value, CupedOutcomeFormula).value)
  }

  /**
   * `cuped`: fit the first stage, adjust the outcome, fit it on
   * `is_treatment`. It succeeds exactly when every stage does and then
   * reports the second stage's `is_treatment` term; otherwise it fails with
   * the error of the first stage that fails.
   */
  function CupedEstimate(df: Frame, covariate: bool, fit: Fitter): (r: Result<TreatmentResult>)
    requires df.Valid()
    ensures r.Ok? <==> CupedStagesOk(df, covariate, fit)
    ensures r.Ok? ==>
      Reports(fit(CupedFrame(df, fit(df, Cuped.Formula(covariate)).value).value, CupedOutcomeFormula).value, r.value)
    ensures fit(df, Cuped.Formula(covariate)).Err? ==> r == Err(fit(df, Cuped.Formula(covariate)).error)
    ensures fit(df, Cuped.Formula(covariate)).Ok? && CupedFrame(df, fit(df, Cuped.Formula(covariate)).value).Err? ==>
      r == Err(CupedFrame(df, fit(df, Cuped.Formula(covariate)).value).error)
    ensures fit(df, Cuped.Formula(covariate)).Ok? && CupedFrame(df, fit(df, Cuped.Formula(covariate)).value).Ok?
            && fit(CupedFrame(df, fit(df, Cuped.Formula(covariate)).value).value, CupedOutcomeFormula).Err? ==>
      r == Err(fit(CupedFrame(df, fit(df, Cuped.Formula(covariate)).value).value, CupedOutcomeFormula).error)
    ensures r.Err? && fit(df, Cuped.Formula(covariate)).Ok? && CupedFrame(df, fit(df, Cuped.Formula(covariate)).value).Ok?
            && fit(CupedFrame(df, fit(df, Cuped.Formula(covariate)).value).value, CupedOutcomeFormula).Ok? ==>
      r.error == MissingTerm(TreatmentTerm)
  {
    match fit(df, Cuped.Formula(covariate))
    case Err(e) => Err(e)
    case Ok(stage1) =>
      match CupedFrame(df, stage1)
      case Err(e) => Err(e)
      case Ok(adjusted) =>
        match fit(adjusted, CupedOutcomeFormula)
        case Err(e) => Err(e)
        case Ok(stage2) => ExtractTreatmentResults(stage2)
  }

  /**
   * Each estimator reports the `is_treatment` coefficient of the fit of its
   * own formula (CUPED: of its second stage, on the adjusted outcome). It
   * fails exactly when a fit or the extraction fails, with the error of the
   * fit, or a missing `is_treatment` term.
   */
  function Estimate(e: Estimator, df: Frame, covariate: bool, fit: Fitter): (r: Result<TreatmentResult>)
    requires df.Valid()
    ensures e != Cuped ==>
      (r.Ok? <==> fit(df, e.Formula(covariate)).Ok? && HasTreatmentTerm(fit(df, e.Formula(covariate)).value))
    ensures e != Cuped && r.Ok? ==> Reports(fit(df, e.Formula(covariate)).value, r.value)
    ensures e != Cuped && fit(df, e.Formula(covariate)).Err? ==> r == Err(fit(df, e.Formula(covariate)).error)
    ensures e != Cuped && fit(df, e.Formula(covariate)).Ok? && r.Err? ==> r.error == MissingTerm(TreatmentTerm)
    ensures e == Cuped ==> (r.Ok? <==> CupedStagesOk(df, covariate, fit))
    ensures e == Cuped && r.Ok? ==>
      && var adjusted := CupedFrame(df, fit(df, Cuped.Formula(covariate)).value);
      && adjusted.Ok?
      && adjusted.value.columns.Keys == df.columns.Keys + {CupedColumn}
      && Reports(fit(adjusted.value, CupedOutcomeFormula).value, r.value)
    ensures e == Cuped ==> r == CupedEstimate(df, covariate, fit)
  {
    if e == Cuped then CupedEstimate(df, covariate, fit)
    else
      match fit(df, e.Formula(covariate))
      case Err(x) => Err(x)
      case Ok(m) => ExtractTreatmentResults(m)
  }
}
