/**
 * The batch evaluation harness of `src/evaluate.py`
 * (`evaluate_experiments_batch`): every present experiment crossed with every
 * method configuration, covariate-requesting methods skipped on data without
 * a covariate column, each row tagged with the experiment number, the method
 * name and the experiment's true effect.
 */
module Harness {
  import opened Frames
  import opened Estimators

  /** One entry of the method list: an estimator and its covariate flag. */
  datatype MethodConfig = MethodConfig(func: Estimator, useCovariate: bool)

  /** One result row: the treatment result plus the three harness tags. */
  datatype ResultRow = ResultRow(
    result: TreatmentResult,
    experimentNumber: int,
    methodName: string,
    trueEffect: real)

  const CovariateTag: string := "_covariate"

  /** The estimator's name, with `_covariate` appended when the flag is set. */
  function MethodName(c: MethodConfig): (n: string)
    ensures |n| >= |c.func.Name()| && n[..|c.func.Name()|] == c.func.Name()
    ensures n[|c.func.Name()|..] == if c.useCovariate then CovariateTag else ""
  {
    c.func.Name() + (if c.useCovariate then CovariateTag else "")
  }

  /** The name read back: the configuration a method name stands for. */
  function ParseMethodName(name: string): Option<MethodConfig>
  {
    if name == "t_test" then Some(MethodConfig(TTest, false))
    else if name == "t_test_covariate" then Some(MethodConfig(TTest, true))
    else if name == "diff_in_diff" then Some(MethodConfig(DiffInDiff, false))
    else if name == "diff_in_diff_covariate" then Some(MethodConfig(DiffInDiff, true))
    else if name == "autoregression" then Some(MethodConfig(Autoregression, false))
    else if name == "autoregression_covariate" then Some(MethodConfig(Autoregression, true))
    else if name == "cuped" then Some(MethodConfig(Cuped, false))
    else if name == "cuped_covariate" then Some(MethodConfig(Cuped, true))
    else None
  }

  /**
   * A method name identifies its configuration: reading it back gives the
   * estimator and the flag, so no two configurations share a name.
   */
  lemma MethodNameRoundTrip(c: MethodConfig)
    ensures ParseMethodName(MethodName(c)) == Some(c)
  {
    match c.func
    case TTest => NameRoundTrip(c, "t_test", "t_test_covariate");
    case DiffInDiff => NameRoundTrip(c, "diff_in_diff", "diff_in_diff_covariate");
    case Autoregression => NameRoundTrip(c, "autoregression", "autoregression_covariate");
    case Cuped => NameRoundTrip(c, "cuped", "cuped_covariate");
  }

  /** The two names of one estimator, with and without the covariate tag. */
  lemma NameRoundTrip(c: MethodConfig, plain: string, tagged: string)
    requires c.func.Name() == plain && plain + CovariateTag == tagged
    requires ParseMethodName(plain) == Some(MethodConfig(c.func, false))
    requires ParseMethodName(tagged) == Some(MethodConfig(c.func, true))
    ensures ParseMethodName(MethodName(c)) == Some(c)
  {
    if c.useCovariate {
      assert MethodName(c) == tagged;
    } else {
      assert MethodName(c) == plain + "";
    }
  }

  lemma MethodNameInjective(a: MethodConfig, b: MethodConfig)
    ensures MethodName(a) == MethodName(b) <==> a == b
  {
    MethodNameRoundTrip(a);
    MethodNameRoundTrip(b);
  }

  /** The combination is skipped: a covariate is asked for and the data has none. */
  predicate Skipped(frame: Frame, c: MethodConfig)
  {
    c.useCovariate && "covariate" !in frame.columns
  }

  /** What `groupby` delivers: every group is a well-formed frame with at least one row. */
  ghost predicate GroupsValid(grouped: map<int, Frame>)
  {
    forall k :: k in grouped ==> grouped[k].Valid() && grouped[k].rows > 0
  }

  /**
   * `row` is what the harness emits for experiment `expNum` (data `frame`)
   * and method `c`: the estimator's result, tagged with the loop's
   * experiment number, the constructed name and the first-row true effect.
   */
  ghost predicate Tagged(frame: Frame, expNum: int, c: MethodConfig, fit: Fitter, row: ResultRow)
    requires frame.Valid() && frame.rows > 0
  {
    && Estimate(c.func, frame, c.useCovariate, fit) == Ok(row.result)
    && row.experimentNumber == expNum
    && row.methodName == MethodName(c)
    && "true_effect" in frame.columns
    && row.trueEffect == frame.columns["true_effect"][0]
  }

  /** The inner loop body for one method configuration: a row, nothing, or an exception. */
  function ConfigRow(frame: Frame, expNum: int, c: MethodConfig, fit: Fitter): (r: Result<Option<ResultRow>>)
    requires frame.Valid() && frame.rows > 0
    ensures r == Ok(None) <==> Skipped(frame, c)
    ensures r.Ok? && r.value.Some? ==> Tagged(frame, expNum, c, fit, r.value.value)
    ensures r.Err? ==> !Skipped(frame, c)
    ensures r.Err? ==>
      (match Estimate(c.func, frame, c.useCovariate, fit)
       case Err(e) => r.error == e
       case Ok(_) => "true_effect" !in frame.columns && r.error == MissingColumn("true_effect"))
  {
    if Skipped(frame, c) then Ok(None)
    else
      match Estimate(c.func, frame, c.useCovariate, fit)
      case Err(e) => Err(e)
      case Ok(result) =>
        if "true_effect" !in frame.columns then Err(MissingColumn("true_effect"))
        else Ok(Some(ResultRow(result, expNum, MethodName(c), frame.columns["true_effect"][0])))
  }

  /** Appending the outcome of one more step: the first error wins. */
  function AppendRow(acc: Result<seq<ResultRow>>, step: Result<Option<ResultRow>>): Result<seq<ResultRow>>
  {
    match acc
    case Err(e) => Err(e)
    case Ok(rows) =>
      match step
      case Err(e) => Err(e)
      case Ok(None) => Ok(rows)
      case Ok(Some(row)) => Ok(rows + [row])
  }

  /** Concatenating two outcomes: the first error wins. */
  function AppendRows(acc: Result<seq<ResultRow>>, more: Result<seq<ResultRow>>): Result<seq<ResultRow>>
  {
    match acc
    case Err(e) => Err(e)
    case Ok(rows) =>
      match more
      case Err(e) => Err(e)
      case Ok(extra) => Ok(rows + extra)
  }

  /**
   * The rows one experiment contributes, method configurations in order: at
   * most one per configuration, each tagged with the experiment number.
   */
  function ExperimentRows(frame: Frame, expNum: int, configs: seq<MethodConfig>, fit: Fitter): (r: Result<seq<ResultRow>>)
    requires frame.Valid() && frame.rows > 0
    ensures r.Ok? ==> |r.value| <= |configs|
    ensures r.Ok? ==> forall row :: row in r.value ==> row.experimentNumber == expNum
  {
    if |configs| == 0 then Ok([])
    else
      AppendRow(ExperimentRows(frame, expNum, configs[..|configs| - 1], fit),
                ConfigRow(frame, expNum, configs[|configs| - 1], fit))
  }

  /**
   * The rows of the whole batch, experiment numbers in order; absent ones
   * add nothing. There are at most as many rows as experiment numbers times
   * configurations.
   */
  function BatchRows(grouped: map<int, Frame>, nums: seq<int>, configs: seq<MethodConfig>, fit: Fitter): (r: Result<seq<ResultRow>>)
    requires GroupsValid(grouped)
    ensures r.Ok? ==> |r.value| <= |nums| * |configs|
  {
    if |nums| == 0 then Ok([])
    else
      var last := nums[|nums| - 1];
      var before := BatchRows(grouped, nums[..|nums| - 1], configs, fit);
      assert (|nums| - 1) * |configs| + |configs| == |nums| * |configs|;
      if last !in grouped then before
      else AppendRows(before, ExperimentRows(grouped[last], last, configs, fit))
  }

  /**
   * `evaluate_experiments_batch`: the nested loop over experiment numbers and
   * method configurations, appending one tagged row per combination that is
   * neither absent nor skipped; an exception from an estimator propagates.
   */
  method EvaluateExperimentsBatch(grouped: map<int, Frame>, nums: seq<int>, configs: seq<MethodConfig>, fit: Fitter)
    returns (r: Result<seq<ResultRow>>)
    requires GroupsValid(grouped)
    ensures r == BatchRows(grouped, nums, configs, fit)
  {
    var results: seq<ResultRow> := [];
    for i := 0 to |nums|
      invariant BatchRows(grouped, nums[..i], configs, fit) == Ok(results)
    {
      var expNum := nums[i];
      assert nums[..i + 1][..i] == nums[..i];
      if expNum !in grouped {
        continue;
      }
      var expData := grouped[expNum];
      var rows := EvaluateExperiment(expData, expNum, configs, fit);
      if rows.Err? {
        BatchRowsErr(grouped, nums, i + 1, configs, fit);
        return rows;
      }
      results := results + rows.value;
    }
    assert nums[..|nums|] == nums;
    return Ok(results);
  }

  /** The inner loop of `evaluate_experiments_batch`, over the method configurations of one experiment. */
  method EvaluateExperiment(expData: Frame, expNum: int, configs: seq<MethodConfig>, fit: Fitter)
    returns (r: Result<seq<ResultRow>>)
    requires expData.Valid() && expData.rows > 0
    ensures r == ExperimentRows(expData, expNum, configs, fit)
  {
    var results: seq<ResultRow> := [];
    for j := 0 to |configs|
      invariant ExperimentRows(expData, expNum, configs[..j], fit) == Ok(results)
    {
      var config := configs[j];
      assert configs[..j + 1][..j] == configs[..j];
      var methodName := MethodName(config);
      if config.useCovariate && "covariate" !in expData.columns {
        continue;
      }
      var estimate := Estimate(config.func, expData, config.useCovariate, fit);
      if estimate.Err? {
        ExperimentRowsErr(expData, expNum, configs, j + 1, fit);
        return Err(estimate.error);
      }
      if "true_effect" !in expData.columns {
        ExperimentRowsErr(expData, expNum, configs, j + 1, fit);
        return Err(MissingColumn("true_effect"));
      }
      var row := ResultRow(estimate.value, expNum, methodName, expData.columns["true_effect"][0]);
      results := results + [row];
    }
    assert configs[..|configs|] == configs;
    return Ok(results);
  }

  /** An error in a prefix of the method list is the error of the whole list. */
  lemma {:induction false} ExperimentRowsErr(frame: Frame, expNum: int, configs: seq<MethodConfig>, k: nat, fit: Fitter)
    requires frame.Valid() && frame.rows > 0
    requires k <= |configs|
    requires ExperimentRows(frame, expNum, configs[..k], fit).Err?
    ensures ExperimentRows(frame, expNum, configs, fit) == ExperimentRows(frame, expNum, configs[..k], fit)
    decreases |configs| - k
  {
    if k < |configs| {
      assert configs[..k + 1][..k] == configs[..k];
      ExperimentRowsErr(frame, expNum, configs, k + 1, fit);
    } else {
      assert configs[..k] == configs;
    }
  }

  /** An error in a prefix of the experiment list is the error of the whole batch. */
  lemma {:induction false} BatchRowsErr(grouped: map<int, Frame>, nums: seq<int>, k: nat, configs: seq<MethodConfig>, fit: Fitter)
    requires GroupsValid(grouped)
    requires k <= |nums|
    requires BatchRows(grouped, nums[..k], configs, fit).Err?
    ensures BatchRows(grouped, nums, configs, fit) == BatchRows(grouped, nums[..k], configs, fit)
    decreases |nums| - k
  {
    if k < |nums| {
      assert nums[..k + 1][..k] == nums[..k];
      BatchRowsErr(grouped, nums, k + 1, configs, fit);
    } else {
      assert nums[..k] == nums;
    }
  }

  /** `row` comes from one of the listed, present experiments and one of the listed methods. */
  ghost predicate RowOrigin(grouped: map<int, Frame>, nums: seq<int>, configs: seq<MethodConfig>, fit: Fitter, row: ResultRow)
    requires GroupsValid(grouped)
  {
    && row.experimentNumber in nums
    && row.experimentNumber in grouped
    && exists c :: c in configs && !Skipped(grouped[row.experimentNumber], c)
                && Tagged(grouped[row.experimentNumber], row.experimentNumber, c, fit, row)
  }

  lemma {:induction false} ExperimentRowsTagged(frame: Frame, expNum: int, configs: seq<MethodConfig>, fit: Fitter)
    requires frame.Valid() && frame.rows > 0
    ensures var r := ExperimentRows(frame, expNum, configs, fit);
      r.Ok? ==> forall row :: row in r.value ==>
        exists c :: c in configs && !Skipped(frame, c) && Tagged(frame, expNum, c, fit, row)
  {
    if |configs| > 0 {
      var prefix := configs[..|configs| - 1];
      var last := configs[|configs| - 1];
      ExperimentRowsTagged(frame, expNum, prefix, fit);
      var r := ExperimentRows(frame, expNum, configs, fit);
      if r.Ok? {
        forall row | row in r.value
          ensures exists c :: c in configs && !Skipped(frame, c) && Tagged(frame, expNum, c, fit, row)
        {
          var before := ExperimentRows(frame, expNum, prefix, fit).value;
          if row in before {
            var c :| c in prefix && !Skipped(frame, c) && Tagged(frame, expNum, c, fit, row);
            assert c in configs;
          } else {
            assert last in configs;
          }
        }
      }
    }
  }

  /**
   * Every emitted row carries an experiment number that was asked for and
   * is present in the data, the name of a listed method that was not
   * skipped, that method's result on that experiment's data, and that
   * experiment's first-row true effect.
   */
  lemma {:induction false} BatchRowsTagged(grouped: map<int, Frame>, nums: seq<int>, configs: seq<MethodConfig>, fit: Fitter)
    requires GroupsValid(grouped)
    ensures var r := BatchRows(grouped, nums, configs, fit);
      r.Ok? ==> forall row :: row in r.value ==> RowOrigin(grouped, nums, configs, fit, row)
  {
    if |nums| > 0 {
      var prefix := nums[..|nums| - 1];
      var last := nums[|nums| - 1];
      BatchRowsTagged(grouped, prefix, configs, fit);
      var r := BatchRows(grouped, nums, configs, fit);
      if r.Ok? {
        forall row | row in r.value
          ensures RowOrigin(grouped, nums, configs, fit, row)
        {
          var before := BatchRows(grouped, prefix, configs, fit);
          if row in before.value {
            assert RowOrigin(grouped, prefix, configs, fit, row);
            assert row.experimentNumber in nums;
          } else {
            assert last in grouped;
            ExperimentRowsTagged(grouped[last], last, configs, fit);
            var c :| c in configs && !Skipped(grouped[last], c) && Tagged(grouped[last], last, c, fit, row);
            assert row.experimentNumber == last;
          }
        }
      }
    }
  }

  /** The experiment numbers that are present in the grouped data, in order. */
  function Present(grouped: map<int, Frame>, nums: seq<int>): (p: seq<int>)
    ensures forall x :: x in p <==> x in nums && x in grouped
  {
    if |nums| == 0 then []
    else
      var last := nums[|nums| - 1];
      var before := Present(grouped, nums[..|nums| - 1]);
      assert nums == nums[..|nums| - 1] + [last];
      if last in grouped then before + [last] else before
  }

  /**
   * An experiment number absent from the grouped data contributes no rows
   * and raises nothing: the batch is the batch over the present numbers.
   */
  lemma {:induction false} BatchRowsAbsent(grouped: map<int, Frame>, nums: seq<int>, configs: seq<MethodConfig>, fit: Fitter)
    requires GroupsValid(grouped)
    ensures BatchRows(grouped, nums, configs, fit) == BatchRows(grouped, Present(grouped, nums), configs, fit)
  {
    if |nums| > 0 {
      var prefix := nums[..|nums| - 1];
      var last := nums[|nums| - 1];
      BatchRowsAbsent(grouped, prefix, configs, fit);
      var p := Present(grouped, prefix);
      if last in grouped {
        assert Present(grouped, nums) == p + [last];
        assert (p + [last])[..|p|] == p;
      }
    }
  }

  /** The method list without the covariate-requesting entries, in order. */
  function WithoutCovariateMethods(configs: seq<MethodConfig>): (w: seq<MethodConfig>)
    ensures forall c :: c in w <==> c in configs && !c.useCovariate
  {
    if |configs| == 0 then []
    else
      var last := configs[|configs| - 1];
      var before := WithoutCovariateMethods(configs[..|configs| - 1]);
      assert configs == configs[..|configs| - 1] + [last];
      if last.useCovariate then before else before + [last]
  }

  /**
   * On data without a `covariate` column, the covariate-requesting methods
   * contribute no rows and raise nothing.
   */
  lemma {:induction false} ExperimentRowsWithoutCovariate(frame: Frame, expNum: int, configs: seq<MethodConfig>, fit: Fitter)
    requires frame.Valid() && frame.rows > 0
    requires "covariate" !in frame.columns
    ensures ExperimentRows(frame, expNum, configs, fit)
         == ExperimentRows(frame, expNum, WithoutCovariateMethods(configs), fit)
  {
    if |configs| > 0 {
      var prefix := configs[..|configs| - 1];
      var last := configs[|configs| - 1];
      ExperimentRowsWithoutCovariate(frame, expNum, prefix, fit);
      var w := WithoutCovariateMethods(prefix);
      if !last.useCovariate {
        assert WithoutCovariateMethods(configs) == w + [last];
        assert (w + [last])[..|w|] == w;
      }
    }
  }

  lemma {:induction false} BatchRowsWithoutCovariate(grouped: map<int, Frame>, nums: seq<int>, configs: seq<MethodConfig>, fit: Fitter)
    requires GroupsValid(grouped)
    requires forall k :: k in grouped ==> "covariate" !in grouped[k].columns
    ensures BatchRows(grouped, nums, configs, fit)
         == BatchRows(grouped, nums, WithoutCovariateMethods(configs), fit)
  {
    if |nums| > 0 {
      var last := nums[|nums| - 1];
      BatchRowsWithoutCovariate(grouped, nums[..|nums| - 1], configs, fit);
      if last in grouped {
        ExperimentRowsWithoutCovariate(grouped[last], last, configs, fit);
      }
    }
  }

  /** The combination yields a row: not skipped, the estimator succeeds, the true effect is there. */
  ghost predicate Emits(frame: Frame, expNum: int, c: MethodConfig, fit: Fitter)
    requires frame.Valid() && frame.rows > 0
  {
    ConfigRow(frame, expNum, c, fit).Ok? && ConfigRow(frame, expNum, c, fit).value.Some?
  }

  lemma {:induction false} ExperimentRowsComplete(frame: Frame, expNum: int, configs: seq<MethodConfig>, fit: Fitter)
    requires frame.Valid() && frame.rows > 0
    requires forall c :: c in configs ==> Emits(frame, expNum, c, fit)
    ensures var r := ExperimentRows(frame, expNum, configs, fit);
      && r.Ok? && |r.value| == |configs|
      && forall j :: 0 <= j < |configs| ==> ConfigRow(frame, expNum, configs[j], fit) == Ok(Some(r.value[j]))
  {
    if |configs| > 0 {
      var n := |configs|;
      var prefix := configs[..n - 1];
      var last := configs[n - 1];
      assert forall c :: c in prefix ==> c in configs;
      ExperimentRowsComplete(frame, expNum, prefix, fit);
      assert last in configs;
      var step := ConfigRow(frame, expNum, last, fit);
      assert step.Ok? && step.value.Some?;
      var before := ExperimentRows(frame, expNum, prefix, fit).value;
      var r := ExperimentRows(frame, expNum, configs, fit);
      assert r == Ok(before + [step.value.value]);
      forall j | 0 <= j < n
        ensures ConfigRow(frame, expNum, configs[j], fit) == Ok(Some(r.value[j]))
      {
        if j < n - 1 {
          assert configs[j] == prefix[j];
        }
      }
    }
  }

  /** The position of cell (i, j) in a k-by-m table stored row by row. */
  function Slot(i: nat, j: nat, m: nat, k: nat): (s: nat)
    requires i < k && j < m
    ensures s < k * m
  {
    assert (i + 1) * m <= k * m;
    i * m + j
  }

  /** What experiment `n` and method `c` contribute to a batch over `grouped`. */
  ghost function Cell(grouped: map<int, Frame>, n: int, c: MethodConfig, fit: Fitter): Result<Option<ResultRow>>
    requires GroupsValid(grouped)
  {
    if n in grouped then ConfigRow(grouped[n], n, c, fit) else Ok(None)
  }

  /** Where cell (i, j) of a k-by-m table falls once its last row is appended. */
  lemma ConcatSlot<T>(before: seq<T>, mine: seq<T>, i: nat, j: nat, m: nat, k: nat)
    requires k > 0 && |before| == (k - 1) * m && |mine| == m
    requires i < k && j < m
    ensures |before + mine| == k * m
    ensures i < k - 1 ==>
      (Slot(i, j, m, k) == Slot(i, j, m, k - 1) && (before + mine)[Slot(i, j, m, k)] == before[Slot(i, j, m, k - 1)])
    ensures i == k - 1 ==> (before + mine)[Slot(i, j, m, k)] == mine[j]
  {
    assert (k - 1) * m + m == k * m;
    if i == k - 1 {
      assert Slot(i, j, m, k) == (k - 1) * m + j;
    }
  }

  /**
   * With k experiment numbers, all present, and m method configurations,
   * none skipped and none failing, the batch has exactly k*m rows, ordered
   * experiment-major in input order and method-minor in configuration order.
   */
  lemma {:induction false} BatchRowsComplete(grouped: map<int, Frame>, nums: seq<int>, configs: seq<MethodConfig>, fit: Fitter)
    requires GroupsValid(grouped)
    requires forall n :: n in nums ==> n in grouped
    requires forall n, c :: n in nums && c in configs ==> Cell(grouped, n, c, fit).Ok? && Cell(grouped, n, c, fit).value.Some?
    ensures var r := BatchRows(grouped, nums, configs, fit);
      && r.Ok? && |r.value| == |nums| * |configs|
      && forall i, j :: 0 <= i < |nums| && 0 <= j < |configs| ==>
           Cell(grouped, nums[i], configs[j], fit) == Ok(Some(r.value[Slot(i, j, |configs|, |nums|)]))
  {
    var m := |configs|;
    if |nums| == 0 {
      return;
    }
    var k := |nums|;
    var prefix := nums[..k - 1];
    var last := nums[k - 1];
    assert forall n :: n in prefix ==> n in nums;
    BatchRowsComplete(grouped, prefix, configs, fit);
    assert last in nums && last in grouped;
    forall c | c in configs
      ensures Emits(grouped[last], last, c, fit)
    {
      assert Cell(grouped, last, c, fit).Ok? && Cell(grouped, last, c, fit).value.Some?;
    }
    ExperimentRowsComplete(grouped[last], last, configs, fit);
    var before := BatchRows(grouped, prefix, configs, fit).value;
    var mine := ExperimentRows(grouped[last], last, configs, fit).value;
    var r := BatchRows(grouped, nums, configs, fit).value;
    assert r == before + mine;
    if m == 0 {
      assert |r| == 0 == k * m;
      return;
    }
    assert forall i :: 0 <= i < k - 1 ==> nums[i] == prefix[i];
    CompleteStep(grouped, nums, configs, fit, before, mine);
  }

  /** The inductive step of `BatchRowsComplete`: the last experiment's rows land in the last row of the table. */
  lemma CompleteStep(grouped: map<int, Frame>, nums: seq<int>, configs: seq<MethodConfig>, fit: Fitter,
                     before: seq<ResultRow>, mine: seq<ResultRow>)
    requires GroupsValid(grouped)
    requires |nums| > 0 && |configs| > 0 && nums[|nums| - 1] in grouped
    requires |before| == (|nums| - 1) * |configs| && |mine| == |configs|
    requires forall i, j :: 0 <= i < |nums| - 1 && 0 <= j < |configs| ==>
      Cell(grouped, nums[i], configs[j], fit) == Ok(Some(before[Slot(i, j, |configs|, |nums| - 1)]))
    requires forall j :: 0 <= j < |configs| ==>
      ConfigRow(grouped[nums[|nums| - 1]], nums[|nums| - 1], configs[j], fit) == Ok(Some(mine[j]))
    ensures |before + mine| == |nums| * |configs|
    ensures forall i, j :: 0 <= i < |nums| && 0 <= j < |configs| ==>
      Cell(grouped, nums[i], configs[j], fit) == Ok(Some((before + mine)[Slot(i, j, |configs|, |nums|)]))
  {
    var k := |nums|;
    var m := |configs|;
    ConcatSlot(before, mine, 0, 0, m, k);
    forall i, j | 0 <= i < k && 0 <= j < m
      ensures Cell(grouped, nums[i], configs[j], fit) == Ok(Some((before + mine)[Slot(i, j, m, k)]))
    {
      ConcatSlot(before, mine, i, j, m, k);
    }
  }

  lemma AppendRowsAssociative(a: Result<seq<ResultRow>>, b: Result<seq<ResultRow>>, c: Result<seq<ResultRow>>)
    ensures AppendRows(AppendRows(a, b), c) == AppendRows(a, AppendRows(b, c))
  {
    if a.Ok? && b.Ok? && c.Ok? {
      assert (a.value + b.value) + c.value == a.value + (b.value + c.value);
    }
  }

  /**
   * Evaluating two lists of experiment numbers one after the other is
   * evaluating their concatenation: the harness can be run batch by batch.
   */
  lemma {:induction false} BatchRowsAppend(grouped: map<int, Frame>, a: seq<int>, b: seq<int>, configs: seq<MethodConfig>, fit: Fitter)
    requires GroupsValid(grouped)
    ensures BatchRows(grouped, a + b, configs, fit)
         == AppendRows(BatchRows(grouped, a, configs, fit), BatchRows(grouped, b, configs, fit))
  {
    if |b| == 0 {
      assert a + b == a;
      var r := BatchRows(grouped, a, configs, fit);
      if r.Ok? {
        assert r.value + [] == r.value;
      }
    } else {
      var prefix := b[..|b| - 1];
      var last := b[|b| - 1];
      assert (a + b)[..|a + b| - 1] == a + prefix;
      assert (a + b)[|a + b| - 1] == last;
      BatchRowsAppend(grouped, a, prefix, configs, fit);
      if last in grouped {
        AppendRowsAssociative(BatchRows(grouped, a, configs, fit), BatchRows(grouped, prefix, configs, fit),
                              ExperimentRows(grouped[last], last, configs, fit));
      }
    }
  }
}
