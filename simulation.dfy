/**
 * The experiment generator of `src/simulate.py` (`simulate_experiment`).
 *
 * The generator is seeded from the experiment number and draws, in order:
 * `n` normal baselines, `n` uniform covariates (only with a covariate), `n`
 * uniform assignment draws and `n` normal post-period values. Here those
 * draws are inputs, given as standard variates; numpy's
 * `normal(loc, scale)` is `loc + scale * z` and `uniform(low, high)` is
 * `low + (high - low) * v`. With the draws fixed the simulation is a
 * function, which is the reproducibility the seed buys.
 */
module Simulation {
  import opened Frames

  /** The entries of the `params` dictionary that the simulation reads. */
  datatype Params = Params(
    n: nat,
    trueEffect: real,
    targetPreExperimentMean: real,
    targetStd: real,
    covariateMin: real,
    covariateMax: real,
    covariateEffect: real,
    covariateSelectionBias: real)

  /**
   * The random draws as standard variates: standard normals, and the unit
   * uniforms numpy scales (numpy's lie in [0, 1); nothing here needs that
   * bound, so the model does not impose it).
   */
  datatype Draws = Draws(
    preNormal: seq<real>,
    covariateUnit: seq<real>,
    assignmentUniform: seq<real>,
    postNormal: seq<real>)

  /** The generator supplies `n` draws for each array it is asked for. */
  predicate DrawsFor(d: Draws, n: nat, hasCovariate: bool)
  {
    && |d.preNormal| == n
    && |d.assignmentUniform| == n
    && |d.postNormal| == n
    && (hasCovariate ==> |d.covariateUnit| == n)
  }

  /** The simulated table, one sequence per column; `covariate` only when simulated. */
  datatype ExperimentTable = ExperimentTable(
    preExperiment: seq<real>,
    postExperiment: seq<real>,
    change: seq<real>,
    isTreatment: seq<int>,
    trueEffect: seq<real>,
    covariate: Option<seq<real>>)

  /** Every column has `n` entries. */
  predicate HasRows(t: ExperimentTable, n: nat)
  {
    && |t.preExperiment| == n
    && |t.postExperiment| == n
    && |t.change| == n
    && |t.isTreatment| == n
    && |t.trueEffect| == n
    && (t.covariate.Some? ==> |t.covariate.value| == n)
  }

  /** A scalar broadcast to `n` rows. */
  function Fill(n: nat, x: real): (s: seq<real>)
    ensures |s| == n && forall i :: 0 <= i < n ==> s[i] == x
  {
    seq(n, i => x)
  }

  /** `np.random.normal(mean, std, size=n)` on the baseline draws. */
  function PreColumn(p: Params, z: seq<real>): (pre: seq<real>)
    requires |z| == p.n
    ensures |pre| == p.n
    ensures forall i :: 0 <= i < p.n ==> pre[i] == p.targetPreExperimentMean + p.targetStd * z[i]
  {
    seq(p.n, i requires 0 <= i < p.n => p.targetPreExperimentMean + p.targetStd * z[i])
  }

  /** The covariate: uniform on [min, max) when simulated, the scalar 0 otherwise. */
  function CovariateColumn(hasCovariate: bool, p: Params, v: seq<real>): (cov: seq<real>)
    requires hasCovariate ==> |v| == p.n
    ensures |cov| == p.n
    ensures forall i :: 0 <= i < p.n ==>
      cov[i] == if hasCovariate then p.covariateMin + (p.covariateMax - p.covariateMin) * v[i] else 0.0
  {
    if hasCovariate then seq(p.n, i requires 0 <= i < p.n => p.covariateMin + (p.covariateMax - p.covariateMin) * v[i])
    else Fill(p.n, 0.0)
  }

  /** `covariate * covariate_selection_bias` under selection bias, the scalar 0 otherwise. */
  function SelectionImpact(hasCovariate: bool, hasSelectionBias: bool, p: Params, cov: seq<real>): (impact: seq<real>)
    ensures |impact| == |cov|
    ensures forall i :: 0 <= i < |cov| ==>
      impact[i] == if hasCovariate && hasSelectionBias then cov[i] * p.covariateSelectionBias else 0.0
  {
    if hasCovariate && hasSelectionBias then seq(|cov|, i requires 0 <= i < |cov| => cov[i] * p.covariateSelectionBias)
    else Fill(|cov|, 0.0)
  }

  /** `np.where(rand(n) > 0.5 + selection_impact, 1, 0)`. */
  function Assignment(u: seq<real>, impact: seq<real>): (t: seq<int>)
    requires |u| == |impact|
    ensures |t| == |u|
    ensures forall i :: 0 <= i < |u| ==> (t[i] == 0 || t[i] == 1) && (t[i] == 1 <==> u[i] > 0.5 + impact[i])
  {
    seq(|u|, i requires 0 <= i < |u| => if u[i] > 0.5 + impact[i] then 1 else 0)
  }

  /** `np.random.normal(pre + true_effect * is_treatment + covariate * covariate_effect, std)`. */
  function PostColumn(p: Params, pre: seq<real>, t: seq<int>, cov: seq<real>, covEffect: real, z: seq<real>): (post: seq<real>)
    requires |pre| == |t| == |cov| == |z|
    ensures |post| == |pre|
    ensures forall i :: 0 <= i < |pre| ==>
      post[i] == (pre[i] + p.trueEffect * (t[i] as real) + cov[i] * covEffect) + p.targetStd * z[i]
  {
    seq(|pre|, i requires 0 <= i < |pre| =>
      (pre[i] + p.trueEffect * (t[i] as real) + cov[i] * covEffect) + p.targetStd * z[i])
  }

  /** `post_experiment - pre_experiment`. */
  function Difference(post: seq<real>, pre: seq<real>): (change: seq<real>)
    requires |post| == |pre|
    ensures |change| == |pre| && forall i :: 0 <= i < |pre| ==> change[i] == post[i] - pre[i]
  {
    seq(|pre|, i requires 0 <= i < |pre| => post[i] - pre[i])
  }

  /** The covariate value of row `i` as the outcome sees it: 0 without a covariate. */
  function CovariateAt(t: ExperimentTable, i: nat): real
  {
    if t.covariate.Some? && i < |t.covariate.value| then t.covariate.value[i] else 0.0
  }

  /** Row by row, the baseline is the configured normal around the target mean. */
  ghost predicate BaselineRows(p: Params, d: Draws, t: ExperimentTable)
    requires DrawsFor(d, p.n, false) && HasRows(t, p.n)
  {
    forall i :: 0 <= i < p.n ==> t.preExperiment[i] == p.targetPreExperimentMean + p.targetStd * d.preNormal[i]
  }

  /** Row by row, a simulated covariate is uniform over [covariate_min, covariate_max). */
  ghost predicate CovariateRows(p: Params, d: Draws, t: ExperimentTable)
    requires HasRows(t, p.n)
  {
    t.covariate.Some? ==> |d.covariateUnit| == p.n && forall i :: 0 <= i < p.n ==>
      t.covariate.value[i] == p.covariateMin + (p.covariateMax - p.covariateMin) * d.covariateUnit[i]
  }

  /**
   * Row by row, treatment is 0 or 1, and 1 exactly when the uniform draw
   * exceeds 0.5 plus the selection impact: the covariate times the
   * selection-bias coefficient under selection bias, 0 otherwise.
   */
  ghost predicate AssignmentRows(hasSelectionBias: bool, p: Params, d: Draws, t: ExperimentTable)
    requires DrawsFor(d, p.n, false) && HasRows(t, p.n)
  {
    forall i :: 0 <= i < p.n ==>
      && (t.isTreatment[i] == 0 || t.isTreatment[i] == 1)
      && (t.isTreatment[i] == 1 <==>
            d.assignmentUniform[i] > 0.5 + (if hasSelectionBias then CovariateAt(t, i) * p.covariateSelectionBias else 0.0))
  }

  /**
   * Row by row, the post value is drawn around the baseline plus the true
   * effect when treated plus the covariate effect (0 without a covariate).
   */
  ghost predicate OutcomeRows(hasCovariate: bool, p: Params, d: Draws, t: ExperimentTable)
    requires DrawsFor(d, p.n, false) && HasRows(t, p.n)
  {
    forall i :: 0 <= i < p.n ==>
      t.postExperiment[i]
      == (t.preExperiment[i] + p.trueEffect * (t.isTreatment[i] as real)
          + CovariateAt(t, i) * (if hasCovariate then p.covariateEffect else 0.0))
         + p.targetStd * d.postNormal[i]
  }

  /** Row by row, `change` is post minus pre and `true_effect` is the configured effect. */
  ghost predicate DerivedRows(p: Params, t: ExperimentTable)
    requires HasRows(t, p.n)
  {
    && (forall i :: 0 <= i < p.n ==> t.change[i] == t.postExperiment[i] - t.preExperiment[i])
    && (forall i :: 0 <= i < p.n ==> t.trueEffect[i] == p.trueEffect)
  }

  /** `t` is the table the causal model describes for configuration and draws. */
  ghost predicate Simulated(hasCovariate: bool, hasSelectionBias: bool, p: Params, d: Draws, t: ExperimentTable)
  {
    && DrawsFor(d, p.n, hasCovariate)
    && HasRows(t, p.n)
    && (t.covariate.Some? <==> hasCovariate)
    && BaselineRows(p, d, t)
    && CovariateRows(p, d, t)
    && AssignmentRows(hasSelectionBias, p, d, t)
    && OutcomeRows(hasCovariate, p, d, t)
    && DerivedRows(p, t)
  }

  /**
   * `simulate_experiment`: fails on selection bias without a covariate,
   * before generating anything, and otherwise on a negative `target_std`,
   * which numpy's first normal draw rejects; otherwise returns the table of
   * `n` rows the causal model describes for the configuration and the draws.
   */
  function SimulateExperiment(hasCovariate: bool, hasSelectionBias: bool, p: Params, d: Draws): (r: Result<ExperimentTable>)
    requires DrawsFor(d, p.n, hasCovariate)
    ensures r.Err? <==> (hasSelectionBias && !hasCovariate) || p.targetStd < 0.0
    ensures hasSelectionBias && !hasCovariate ==> r == Err(SelectionBiasWithoutCovariate)
    ensures !(hasSelectionBias && !hasCovariate) && p.targetStd < 0.0 ==> r == Err(NegativeScale("target_std"))
    ensures r.Ok? ==> Simulated(hasCovariate, hasSelectionBias, p, d, r.value)
  {
    if hasSelectionBias && !hasCovariate then Err(SelectionBiasWithoutCovariate)
    else if p.targetStd < 0.0 then Err(NegativeScale("target_std"))
    else
      GenerateSimulated(hasCovariate, hasSelectionBias, p, d);
      Ok(Generate(hasCovariate, hasSelectionBias, p, d))
  }

  /** The vectorised body of `simulate_experiment`, once the configuration is accepted. */
  function Generate(hasCovariate: bool, hasSelectionBias: bool, p: Params, d: Draws): (t: ExperimentTable)
    requires DrawsFor(d, p.n, hasCovariate)
    ensures HasRows(t, p.n) && (t.covariate.Some? <==> hasCovariate)
  {
    var pre := PreColumn(p, d.preNormal);
    var covariate := CovariateColumn(hasCovariate, p, d.covariateUnit);
    var covariateEffect := if hasCovariate then p.covariateEffect else 0.0;
    var selectionImpact := SelectionImpact(hasCovariate, hasSelectionBias, p, covariate);
    var isTreatment := Assignment(d.assignmentUniform, selectionImpact);
    var post := PostColumn(p, pre, isTreatment, covariate, covariateEffect, d.postNormal);
    ExperimentTable(
      pre,
      post,
      Difference(post, pre),
      isTreatment,
      Fill(p.n, p.trueEffect),
      if hasCovariate then Some(covariate) else None)
  }

  lemma GenerateSimulated(hasCovariate: bool, hasSelectionBias: bool, p: Params, d: Draws)
    requires DrawsFor(d, p.n, hasCovariate)
    requires hasSelectionBias ==> hasCovariate
    ensures Simulated(hasCovariate, hasSelectionBias, p, d, Generate(hasCovariate, hasSelectionBias, p, d))
  {
    GenerateBaseline(hasCovariate, hasSelectionBias, p, d);
    GenerateCovariate(hasCovariate, hasSelectionBias, p, d);
    GenerateAssignment(hasCovariate, hasSelectionBias, p, d);
    GenerateOutcome(hasCovariate, hasSelectionBias, p, d);
    GenerateDerived(hasCovariate, hasSelectionBias, p, d);
  }

  /** The covariate column the generator computes internally, as the table exposes it. */
  lemma GenerateCovariateAt(hasCovariate: bool, hasSelectionBias: bool, p: Params, d: Draws)
    requires DrawsFor(d, p.n, hasCovariate)
    ensures var t := Generate(hasCovariate, hasSelectionBias, p, d);
      forall i :: 0 <= i < p.n ==> CovariateAt(t, i) == CovariateColumn(hasCovariate, p, d.covariateUnit)[i]
  {
  }

  lemma GenerateBaseline(hasCovariate: bool, hasSelectionBias: bool, p: Params, d: Draws)
    requires DrawsFor(d, p.n, hasCovariate)
    ensures BaselineRows(p, d, Generate(hasCovariate, hasSelectionBias, p, d))
  {
    var t := Generate(hasCovariate, hasSelectionBias, p, d);
    assert t.preExperiment == PreColumn(p, d.preNormal);
  }

  lemma GenerateCovariate(hasCovariate: bool, hasSelectionBias: bool, p: Params, d: Draws)
    requires DrawsFor(d, p.n, hasCovariate)
    ensures CovariateRows(p, d, Generate(hasCovariate, hasSelectionBias, p, d))
  {
    var t := Generate(hasCovariate, hasSelectionBias, p, d);
    if hasCovariate {
      assert t.covariate == Some(CovariateColumn(hasCovariate, p, d.covariateUnit));
    }
  }

  lemma GenerateAssignment(hasCovariate: bool, hasSelectionBias: bool, p: Params, d: Draws)
    requires DrawsFor(d, p.n, hasCovariate)
    requires hasSelectionBias ==> hasCovariate
    ensures AssignmentRows(hasSelectionBias, p, d, Generate(hasCovariate, hasSelectionBias, p, d))
  {
    var t := Generate(hasCovariate, hasSelectionBias, p, d);
    var covariate := CovariateColumn(hasCovariate, p, d.covariateUnit);
    var selectionImpact := SelectionImpact(hasCovariate, hasSelectionBias, p, covariate);
    assert t.isTreatment == Assignment(d.assignmentUniform, selectionImpact);
    GenerateCovariateAt(hasCovariate, hasSelectionBias, p, d);
  }

  lemma GenerateOutcome(hasCovariate: bool, hasSelectionBias: bool, p: Params, d: Draws)
    requires DrawsFor(d, p.n, hasCovariate)
    ensures OutcomeRows(hasCovariate, p, d, Generate(hasCovariate, hasSelectionBias, p, d))
  {
    var t := Generate(hasCovariate, hasSelectionBias, p, d);
    var covariate := CovariateColumn(hasCovariate, p, d.covariateUnit);
    var covariateEffect := if hasCovariate then p.covariateEffect else 0.0;
    assert t.postExperiment == PostColumn(p, t.preExperiment, t.isTreatment, covariate, covariateEffect, d.postNormal);
    GenerateCovariateAt(hasCovariate, hasSelectionBias, p, d);
    OutcomeFromColumns(hasCovariate, p, d, t, covariate);
  }

  /** A post column computed by `PostColumn` from the covariate the table exposes meets `OutcomeRows`. */
  lemma OutcomeFromColumns(hasCovariate: bool, p: Params, d: Draws, t: ExperimentTable, covariate: seq<real>)
    requires DrawsFor(d, p.n, false) && HasRows(t, p.n) && |covariate| == p.n
    requires t.postExperiment == PostColumn(p, t.preExperiment, t.isTreatment, covariate,
                                            if hasCovariate then p.covariateEffect else 0.0, d.postNormal)
    requires forall i :: 0 <= i < p.n ==> CovariateAt(t, i) == covariate[i]
    ensures OutcomeRows(hasCovariate, p, d, t)
  {
  }

  lemma GenerateDerived(hasCovariate: bool, hasSelectionBias: bool, p: Params, d: Draws)
    requires DrawsFor(d, p.n, hasCovariate)
    ensures DerivedRows(p, Generate(hasCovariate, hasSelectionBias, p, d))
  {
    var t := Generate(hasCovariate, hasSelectionBias, p, d);
    assert t.change == Difference(t.postExperiment, t.preExperiment);
    assert t.trueEffect == Fill(p.n, p.trueEffect);
  }

  /**
   * The draws determine the table: two runs with the same configuration and
   * the same draws (the same seed) produce the same table.
   */
  lemma {:induction false} SimulatedUnique(hasCovariate: bool, hasSelectionBias: bool, p: Params, d: Draws,
                                           t1: ExperimentTable, t2: ExperimentTable)
    requires Simulated(hasCovariate, hasSelectionBias, p, d, t1)
    requires Simulated(hasCovariate, hasSelectionBias, p, d, t2)
    ensures t1 == t2
  {
    assert t1.preExperiment == t2.preExperiment;
    if hasCovariate {
      assert t1.covariate.value == t2.covariate.value;
    }
    assert t1.covariate == t2.covariate;
    assert forall i :: 0 <= i < p.n ==> CovariateAt(t1, i) == CovariateAt(t2, i);
    assert t1.isTreatment == t2.isTreatment;
    assert forall i :: 0 <= i < p.n ==> t1.postExperiment[i] == t2.postExperiment[i];
    assert t1.postExperiment == t2.postExperiment;
    assert t1.change == t2.change;
    assert t1.trueEffect == t2.trueEffect;
  }

  /**
   * Without selection bias, assignment depends on the uniform draws alone:
   * runs that share them have the same treatment column whatever their
   * covariate draws.
   */
  lemma {:induction false} AssignmentIgnoresCovariateWithoutBias(hasCovariate: bool, p: Params,
                                                                 d1: Draws, t1: ExperimentTable,
                                                                 d2: Draws, t2: ExperimentTable)
    requires Simulated(hasCovariate, false, p, d1, t1)
    requires Simulated(hasCovariate, false, p, d2, t2)
    requires d1.assignmentUniform == d2.assignmentUniform
    ensures t1.isTreatment == t2.isTreatment
  {
    assert forall i :: 0 <= i < p.n ==> t1.isTreatment[i] == t2.isTreatment[i];
  }

  /**
   * The baseline cancels out of `change`: runs that differ only in the
   * baseline mean and the baseline draws have the same treatment,
   * covariate and `change` columns.
   */
  lemma {:induction false} ChangeIgnoresBaseline(hasCovariate: bool, hasSelectionBias: bool,
                                                 p1: Params, d1: Draws, t1: ExperimentTable,
                                                 p2: Params, d2: Draws, t2: ExperimentTable)
    requires Simulated(hasCovariate, hasSelectionBias, p1, d1, t1)
    requires Simulated(hasCovariate, hasSelectionBias, p2, d2, t2)
    requires p2 == p1.(targetPreExperimentMean := p2.targetPreExperimentMean)
    requires d2 == d1.(preNormal := d2.preNormal)
    ensures t1.covariate == t2.covariate
    ensures t1.isTreatment == t2.isTreatment
    ensures t1.change == t2.change
  {
    if hasCovariate {
      assert forall i :: 0 <= i < p1.n ==> t1.covariate.value[i] == t2.covariate.value[i];
      assert t1.covariate.value == t2.covariate.value;
    }
    assert forall i :: 0 <= i < p1.n ==> CovariateAt(t1, i) == CovariateAt(t2, i);
    assert t1.isTreatment == t2.isTreatment;
    assert forall i :: 0 <= i < p1.n ==> t1.change[i] == t2.change[i];
  }

  /**
   * The true effect is additive: changing it leaves the baseline, the
   * covariate and the assignment alone and moves each treated outcome by
   * the difference, each control outcome not at all.
   */
  lemma {:induction false} TreatmentEffectAdditive(hasCovariate: bool, hasSelectionBias: bool, d: Draws,
                                                   p1: Params, t1: ExperimentTable,
                                                   p2: Params, t2: ExperimentTable)
    requires Simulated(hasCovariate, hasSelectionBias, p1, d, t1)
    requires Simulated(hasCovariate, hasSelectionBias, p2, d, t2)
    requires p2 == p1.(trueEffect := p2.trueEffect)
    ensures t1.preExperiment == t2.preExperiment
    ensures t1.covariate == t2.covariate
    ensures t1.isTreatment == t2.isTreatment
    ensures forall i :: 0 <= i < p1.n ==>
      t2.postExperiment[i] - t1.postExperiment[i] == (p2.trueEffect - p1.trueEffect) * (t1.isTreatment[i] as real)
  {
    assert forall i :: 0 <= i < p1.n ==> t1.preExperiment[i] == t2.preExperiment[i];
    assert t1.preExperiment == t2.preExperiment;
    if hasCovariate {
      assert forall i :: 0 <= i < p1.n ==> t1.covariate.value[i] == t2.covariate.value[i];
      assert t1.covariate.value == t2.covariate.value;
    }
    assert forall i :: 0 <= i < p1.n ==> CovariateAt(t1, i) == CovariateAt(t2, i);
    assert t1.isTreatment == t2.isTreatment;
  }

  /**
   * A covariate with no effect and no selection bias is a bystander: the
   * table has the same baseline, treatment, outcome and `change` columns as
   * a run without a covariate on the same draws.
   */
  lemma {:induction false} InertCovariate(p: Params, d: Draws, withCov: ExperimentTable, without: ExperimentTable)
    requires Simulated(true, false, p, d, withCov)
    requires Simulated(false, false, p, d, without)
    requires p.covariateEffect == 0.0
    ensures withCov.preExperiment == without.preExperiment
    ensures withCov.isTreatment == without.isTreatment
    ensures withCov.postExperiment == without.postExperiment
    ensures withCov.change == without.change
  {
    assert withCov.preExperiment == without.preExperiment;
    assert withCov.isTreatment == without.isTreatment;
    assert forall i :: 0 <= i < p.n ==> withCov.postExperiment[i] == without.postExperiment[i];
    assert withCov.postExperiment == without.postExperiment;
    assert withCov.change == without.change;
  }

  const BaseColumns: set<string> := {"pre_experiment", "post_experiment", "change", "is_treatment", "true_effect"}

  /** `pd.DataFrame(data)`: the table as a frame with the source's column names. */
  function ToFrame(t: ExperimentTable, n: nat): (f: Frame)
    requires HasRows(t, n)
    ensures f.Valid() && f.rows == n
    ensures f.columns.Keys == BaseColumns + (if t.covariate.Some? then {"covariate"} else {})
    ensures "covariate" in f.columns <==> t.covariate.Some?
    ensures f.columns["pre_experiment"] == t.preExperiment
    ensures f.columns["post_experiment"] == t.postExperiment
    ensures f.columns["change"] == t.change
    ensures f.columns["true_effect"] == t.trueEffect
    ensures t.covariate.Some? ==> f.columns["covariate"] == t.covariate.value
    ensures |f.columns["is_treatment"]| == n
    ensures forall i :: 0 <= i < n ==> f.columns["is_treatment"][i] == t.isTreatment[i] as real
  {
    var base := map[
      "pre_experiment" := t.preExperiment,
      "post_experiment" := t.postExperiment,
      "change" := t.change,
      "is_treatment" := seq(n, i requires 0 <= i < n => t.isTreatment[i] as real),
      "true_effect" := t.trueEffect];
    Frame(n, if t.covariate.Some? then base["covariate" := t.covariate.value] else base)
  }

  /**
   * Building the frame loses nothing: two tables with the same row count
   * that give the same frame are the same table.
   */
  lemma {:induction false} ToFrameInjective(t1: ExperimentTable, t2: ExperimentTable, n: nat)
    requires HasRows(t1, n) && HasRows(t2, n)
    requires ToFrame(t1, n) == ToFrame(t2, n)
    ensures t1 == t2
  {
    var f := ToFrame(t1, n);
    assert forall i :: 0 <= i < n ==> t1.isTreatment[i] as real == t2.isTreatment[i] as real;
    assert t1.isTreatment == t2.isTreatment;
    assert t1.covariate.Some? <==> "covariate" in f.columns;
    if t1.covariate.Some? {
      assert t1.covariate.value == f.columns["covariate"] == t2.covariate.value;
    }
  }
}
