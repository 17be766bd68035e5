/**
 * The scenario driver of the top-level `evaluate.py`: the worker count, the
 * batch size, the cut of the experiment ids into consecutive batches, the
 * experiment count of a scenario, and the merge of the batches' results.
 *
 * The process pool is not modelled as such: batches are evaluated by the
 * harness one by one and the order in which they complete is a parameter.
 */
module Scenario {
  import opened Frames
  import opened Harness

  function Min(a: int, b: int): int
  {
    if a <= b then a else b
  }

  /** `max(1, cpu_count() - 1)`: one core left free, never fewer than one worker. */
  function MaxWorkers(cpuCount: int): (w: int)
    ensures w >= 1 && w >= cpuCount - 1
    ensures w == 1 || w == cpuCount - 1
  {
    if cpuCount - 1 >= 1 then cpuCount - 1 else 1
  }

  /**
   * `max(1, experiments // (max_workers * 4))`. Python's `//` floors; for a
   * positive divisor that is Dafny's `/`.
   */
  function BatchSize(experiments: int, maxWorkers: int): (b: int)
    requires maxWorkers >= 1
    ensures b >= 1
    ensures experiments / (maxWorkers * 4) >= 1 ==> b == experiments / (maxWorkers * 4)
    ensures experiments / (maxWorkers * 4) < 1 ==> b == 1
  {
    var q := experiments / (maxWorkers * 4);
    if q >= 1 then q else 1
  }

  /** `list(range(lo, hi))`: the integers from `lo` up to but excluding `hi`. */
  function Range(lo: int, hi: int): (r: seq<int>)
    ensures |r| == if hi <= lo then 0 else hi - lo
    ensures forall k :: 0 <= k < |r| ==> r[k] == lo + k
  {
    seq(if hi <= lo then 0 else hi - lo, k => lo + k)
  }

  /** Every integer in `[lo, hi)` occurs in `Range(lo, hi)`, once, and nothing else does. */
  lemma RangeExactlyOnce(lo: int, hi: int)
    ensures forall x :: x in Range(lo, hi) <==> lo <= x < hi
    ensures forall k, l :: 0 <= k < l < |Range(lo, hi)| ==> Range(lo, hi)[k] != Range(lo, hi)[l]
  {
    var r := Range(lo, hi);
    forall x | lo <= x < hi
      ensures x in r
    {
      assert r[x - lo] == x;
    }
  }

  lemma RangeAppend(lo: int, mid: int, hi: int)
    requires lo <= mid <= hi
    ensures Range(lo, mid) + Range(mid, hi) == Range(lo, hi)
  {
    var r := Range(lo, mid) + Range(mid, hi);
    assert |r| == |Range(lo, hi)|;
    forall k | 0 <= k < |r|
      ensures r[k] == Range(lo, hi)[k]
    {
      if k < mid - lo {
        assert r[k] == Range(lo, mid)[k];
      } else {
        assert r[k] == Range(mid, hi)[k - (mid - lo)];
      }
    }
  }

  /** The batches concatenated in order. */
  function Flatten(batches: seq<seq<int>>): (ids: seq<int>)
  {
    if |batches| == 0 then [] else Flatten(batches[..|batches| - 1]) + batches[|batches| - 1]
  }

  /**
   * The number of batches: `ceil(experiments / batch_size)`, and none for no
   * experiments; `CeilDiv` and `CeilDivBounds` show it is the least number
   * of batches that covers the ids.
   */
  function BatchCount(experiments: int, batchSize: int): (n: nat)
    requires batchSize >= 1
    ensures n == 0 <==> experiments <= 0
  {
    if experiments <= 0 then 0
    else
      var x := experiments + batchSize - 1;
      assert x == (x / batchSize) * batchSize + x % batchSize;
      x / batchSize
  }

  lemma MulMonotone(a: int, b: int, c: int)
    requires a <= b && c >= 0
    ensures a * c <= b * c
  {
    assert b * c - a * c == (b - a) * c;
  }

  /** `n` is the least count of `b`-sized batches that covers `e` ids. */
  lemma CeilDiv(e: int, b: int, n: int)
    requires e > 0 && b >= 1 && n >= 0
    requires (n - 1) * b < e <= n * b
    ensures BatchCount(e, b) == n
  {
    var x := e + b - 1;
    var q := x / b;
    assert x == q * b + x % b;
    if q < n {
      MulMonotone(q, n - 1, b);
    } else if q > n {
      MulMonotone(n + 1, q, b);
    }
  }

  /** The batch count covers the ids, and one batch fewer would not. */
  lemma CeilDivBounds(e: int, b: int)
    requires e > 0 && b >= 1
    ensures (BatchCount(e, b) - 1) * b < e <= BatchCount(e, b) * b
  {
    var x := e + b - 1;
    var q := x / b;
    assert x == q * b + x % b;
    assert BatchCount(e, b) == q;
  }

  /**
   * The batch loop's state after the batches starting below `i`: they cover
   * the ids below `i` in order, batch j starts at j * size, each is
   * non-empty and at most `size` long, and all of them are full but a last
   * one that reaches past `experiments`.
   */
  ghost predicate BatchesSoFar(batches: seq<seq<int>>, i: int, batchSize: int, experiments: int)
    requires batchSize >= 1
  {
    && 0 <= i == |batches| * batchSize
    && (i == 0 || i - batchSize < experiments)
    && Flatten(batches) == Range(0, Min(i, experiments))
    && (forall j :: 0 <= j < |batches| ==>
          batches[j] == Range(j * batchSize, Min((j + 1) * batchSize, experiments)))
    && (forall j :: 0 <= j < |batches| ==> 0 < |batches[j]| <= batchSize)
    && (forall j :: 0 <= j < |batches| && (j < |batches| - 1 || i <= experiments) ==> |batches[j]| == batchSize)
  }

  /** One iteration of the batch loop keeps `BatchesSoFar`. */
  lemma BatchesStep(batches: seq<seq<int>>, i: int, batchSize: int, experiments: int)
    requires batchSize >= 1 && i < experiments
    requires BatchesSoFar(batches, i, batchSize, experiments)
    ensures BatchesSoFar(batches + [Range(i, Min(i + batchSize, experiments))], i + batchSize, batchSize, experiments)
  {
    var batch := Range(i, Min(i + batchSize, experiments));
    var next := batches + [batch];
    RangeAppend(0, i, Min(i + batchSize, experiments));
    assert next[..|batches|] == batches;
    assert Flatten(next) == Flatten(batches) + batch;
    assert i + batchSize == |next| * batchSize;
  }

  /**
   * `run_scenario`'s batch construction: ids `0 .. experiments - 1` cut into
   * consecutive batches of `batch_size`, the last one possibly shorter.
   */
  method MakeBatches(experiments: int, batchSize: int) returns (batches: seq<seq<int>>)
    requires batchSize >= 1
    ensures |batches| == BatchCount(experiments, batchSize)
    ensures Flatten(batches) == Range(0, experiments)
    ensures forall j :: 0 <= j < |batches| ==>
      batches[j] == Range(j * batchSize, Min((j + 1) * batchSize, experiments))
    ensures forall j :: 0 <= j < |batches| ==> 0 < |batches[j]| <= batchSize
    ensures forall j :: 0 <= j < |batches| - 1 ==> |batches[j]| == batchSize
  {
    batches := [];
    var i := 0;
    while i < experiments
      invariant BatchesSoFar(batches, i, batchSize, experiments)
      decreases experiments - i
    {
      BatchesStep(batches, i, batchSize, experiments);
      batches := batches + [Range(i, Min(i + batchSize, experiments))];
      i := i + batchSize;
    }
    if experiments > 0 {
      CeilDiv(experiments, batchSize, |batches|);
    }
  }

  /**
   * About four batches per worker: never eight or more per worker, and at
   * least four once there are enough experiments to go round.
   */
  lemma BatchesPerWorker(experiments: int, maxWorkers: int)
    requires maxWorkers >= 1
    ensures BatchCount(experiments, BatchSize(experiments, maxWorkers)) < 8 * maxWorkers
    ensures experiments >= 4 * maxWorkers ==> BatchCount(experiments, BatchSize(experiments, maxWorkers)) >= 4 * maxWorkers
  {
    var d := maxWorkers * 4;
    var b := BatchSize(experiments, maxWorkers);
    BatchSizeCases(experiments, d, b);
    if experiments >= d {
      QuotientBatches(experiments, d, b);
    } else if experiments > 0 {
      CeilDiv(experiments, 1, experiments);
    }
  }

  /** The batch size is the quotient once there are `d` experiments, and 1 below that. */
  lemma BatchSizeCases(e: int, d: int, b: int)
    requires d >= 4 && d % 4 == 0 && b == BatchSize(e, d / 4)
    ensures e >= d ==> b == e / d
    ensures e < d ==> b == 1
  {
    var q := e / d;
    assert d / 4 * 4 == d;
    assert e == q * d + e % d;
    if e >= d && q <= 0 {
      MulMonotone(q, 0, d);
    }
    if e < d && q >= 1 {
      MulMonotone(1, q, d);
    }
  }

  /** With at least `d` experiments the batch size is the quotient, which gives between `d` and `2 * d` batches. */
  lemma QuotientBatches(e: int, d: int, b: int)
    requires d >= 4 && e >= d && b == e / d
    ensures d <= BatchCount(e, b) < 2 * d
  {
    var r := e % d;
    assert e == b * d + r && 0 <= r < d;
    MulMonotone(1, b, d);
    CeilDivBounds(e, b);
    CountBounds(e, d, b, r, BatchCount(e, b));
  }

  /** The arithmetic of the batch count once the batch size is the quotient `q`. */
  lemma CountBounds(e: int, d: int, q: int, r: int, n: int)
    requires d >= 4 && q >= 1 && e == q * d + r && 0 <= r < d
    requires (n - 1) * q < e <= n * q
    ensures d <= n < 2 * d
  {
    if n < d {
      MulMonotone(n, d - 1, q);
    }
    if q >= 2 && n >= 2 * d {
      MulMonotone(2 * d - 1, n - 1, q);
      MulMonotone(2, q, d - 1);
    }
  }

  /**
   * `df["experiment_number"].max() + 1`: one more than the largest
   * experiment number, and nothing for an empty column (where pandas gives
   * NaN and the following `range` fails).
   */
  function ExperimentCount(numbers: seq<int>): (r: Option<int>)
    ensures r.None? <==> |numbers| == 0
    ensures r.Some? ==> (forall x :: x in numbers ==> x < r.value) && r.value - 1 in numbers
  {
    if |numbers| == 0 then None
    else
      var rest := ExperimentCount(numbers[..|numbers| - 1]);
      var last := numbers[|numbers| - 1];
      assert numbers == numbers[..|numbers| - 1] + [last];
      if rest.Some? && rest.value > last + 1 then rest else Some(last + 1)
  }

  /** The batches' results, in the order of `order`, each extended onto the last; the first error wins. */
  function Collected(grouped: map<int, Frame>, batches: seq<seq<int>>, order: seq<int>,
                     configs: seq<MethodConfig>, fit: Fitter): (r: Result<seq<ResultRow>>)
    requires GroupsValid(grouped)
    requires forall k :: 0 <= k < |order| ==> 0 <= order[k] < |batches|
    ensures r.Ok? <==> forall k :: 0 <= k < |order| ==> BatchRows(grouped, batches[order[k]], configs, fit).Ok?
  {
    if |order| == 0 then Ok([])
    else
      AppendRows(Collected(grouped, batches, order[..|order| - 1], configs, fit),
                 BatchRows(grouped, batches[order[|order| - 1]], configs, fit))
  }

  /** Two outcomes that agree up to the order of rows: both fail, or both hold the same rows. */
  predicate SameRows(a: Result<seq<ResultRow>>, b: Result<seq<ResultRow>>)
  {
    a.Ok? == b.Ok? && (a.Ok? ==> multiset(a.value) == multiset(b.value))
  }

  lemma AppendRowsCommute(a: Result<seq<ResultRow>>, b: Result<seq<ResultRow>>)
    ensures SameRows(AppendRows(a, b), AppendRows(b, a))
  {
  }

  lemma AppendRowsSameRows(a1: Result<seq<ResultRow>>, a2: Result<seq<ResultRow>>,
                           b1: Result<seq<ResultRow>>, b2: Result<seq<ResultRow>>)
    requires SameRows(a1, a2) && SameRows(b1, b2)
    ensures SameRows(AppendRows(a1, b1), AppendRows(a2, b2))
  {
  }

  /** An error in the results collected so far is the error of the whole collection. */
  lemma {:induction false} CollectedErr(grouped: map<int, Frame>, batches: seq<seq<int>>, order: seq<int>, k: nat,
                                        configs: seq<MethodConfig>, fit: Fitter)
    requires GroupsValid(grouped)
    requires forall i :: 0 <= i < |order| ==> 0 <= order[i] < |batches|
    requires k <= |order|
    requires Collected(grouped, batches, order[..k], configs, fit).Err?
    ensures Collected(grouped, batches, order, configs, fit) == Collected(grouped, batches, order[..k], configs, fit)
  {
    if k < |order| {
      assert order[..|order| - 1][..k] == order[..k];
      CollectedErr(grouped, batches, order[..|order| - 1], k, configs, fit);
    } else {
      assert order[..k] == order;
    }
  }

  /** Collecting two orders one after the other is collecting their concatenation. */
  lemma {:induction false} CollectedConcat(grouped: map<int, Frame>, batches: seq<seq<int>>, u: seq<int>, v: seq<int>,
                                           configs: seq<MethodConfig>, fit: Fitter)
    requires GroupsValid(grouped)
    requires forall i :: 0 <= i < |u| ==> 0 <= u[i] < |batches|
    requires forall i :: 0 <= i < |v| ==> 0 <= v[i] < |batches|
    ensures forall i :: 0 <= i < |u + v| ==> 0 <= (u + v)[i] < |batches|
    ensures Collected(grouped, batches, u + v, configs, fit)
         == AppendRows(Collected(grouped, batches, u, configs, fit), Collected(grouped, batches, v, configs, fit))
  {
    if |v| == 0 {
      assert u + v == u;
      var c := Collected(grouped, batches, u, configs, fit);
      if c.Ok? {
        assert c.value + [] == c.value;
      }
    } else {
      var prefix := v[..|v| - 1];
      assert (u + v)[..|u + v| - 1] == u + prefix;
      CollectedConcat(grouped, batches, u, prefix, configs, fit);
      AppendRowsAssociative(Collected(grouped, batches, u, configs, fit),
                            Collected(grouped, batches, prefix, configs, fit),
                            BatchRows(grouped, batches[v[|v| - 1]], configs, fit));
    }
  }

  /** Where the last element of `o1` sits in its permutation `o2`, and what is left on both sides. */
  lemma RemoveLast(o1: seq<int>, o2: seq<int>) returns (p: nat)
    requires |o1| > 0 && multiset(o1) == multiset(o2)
    ensures p < |o2| && o2[p] == o1[|o1| - 1]
    ensures multiset(o1[..|o1| - 1]) == multiset(o2[..p] + o2[p + 1..])
  {
    var rest := o1[..|o1| - 1];
    var x := o1[|o1| - 1];
    assert o1 == rest + [x];
    assert x in multiset(o2);
    p :| 0 <= p < |o2| && o2[p] == x;
    var a := o2[..p];
    var b := o2[p + 1..];
    assert o2 == a + [x] + b;
    assert multiset(a + b) == multiset(a) + multiset(b);
    assert multiset(rest) == multiset(o1) - multiset{x};
    assert multiset(a + b) == multiset(o2) - multiset{x};
  }

  /**
   * Whatever order the batches complete in, the collection succeeds or fails
   * alike and, when it succeeds, holds the same rows.
   */
  lemma {:induction false} CollectedPermutation(grouped: map<int, Frame>, batches: seq<seq<int>>,
                                                o1: seq<int>, o2: seq<int>, configs: seq<MethodConfig>, fit: Fitter)
    requires GroupsValid(grouped)
    requires forall i :: 0 <= i < |o1| ==> 0 <= o1[i] < |batches|
    requires multiset(o1) == multiset(o2)
    ensures forall i :: 0 <= i < |o2| ==> 0 <= o2[i] < |batches|
    ensures SameRows(Collected(grouped, batches, o1, configs, fit), Collected(grouped, batches, o2, configs, fit))
  {
    forall i | 0 <= i < |o2|
      ensures 0 <= o2[i] < |batches|
    {
      assert o2[i] in multiset(o1);
    }
    if |o1| == 0 {
      assert |o2| == |multiset(o2)| == 0;
    } else {
      var rest := o1[..|o1| - 1];
      var x := o1[|o1| - 1];
      var p := RemoveLast(o1, o2);
      var a := o2[..p];
      var b := o2[p + 1..];
      assert o2 == a + [x] + b;
      forall i | 0 <= i < |a + b|
        ensures 0 <= (a + b)[i] < |batches|
      {
        assert (a + b)[i] in multiset(o2);
      }
      CollectedPermutation(grouped, batches, rest, a + b, configs, fit);
      var ca := Collected(grouped, batches, a, configs, fit);
      var cb := Collected(grouped, batches, b, configs, fit);
      var cx := BatchRows(grouped, batches[x], configs, fit);
      CollectedConcat(grouped, batches, a, b, configs, fit);
      CollectedConcat(grouped, batches, a + [x], b, configs, fit);
      assert (a + [x])[..|a|] == a;
      assert Collected(grouped, batches, a + [x], configs, fit) == AppendRows(ca, cx);
      AppendRowsSameRows(Collected(grouped, batches, rest, configs, fit), AppendRows(ca, cb), cx, cx);
      AppendRowsAssociative(ca, cb, cx);
      AppendRowsCommute(cb, cx);
      AppendRowsSameRows(ca, ca, AppendRows(cb, cx), AppendRows(cx, cb));
      AppendRowsAssociative(ca, cx, cb);
    }
  }

  /** Collecting the first `k` batches in batch order is evaluating their ids as one batch. */
  lemma {:induction false} CollectedInOrder(grouped: map<int, Frame>, batches: seq<seq<int>>, k: nat,
                                            configs: seq<MethodConfig>, fit: Fitter)
    requires GroupsValid(grouped)
    requires k <= |batches|
    ensures forall i :: 0 <= i < k ==> 0 <= Range(0, k)[i] < |batches|
    ensures Collected(grouped, batches, Range(0, k), configs, fit)
         == BatchRows(grouped, Flatten(batches[..k]), configs, fit)
  {
    if k > 0 {
      assert Range(0, k)[..k - 1] == Range(0, k - 1);
      assert batches[..k][..k - 1] == batches[..k - 1];
      CollectedInOrder(grouped, batches, k - 1, configs, fit);
      BatchRowsAppend(grouped, Flatten(batches[..k - 1]), batches[k - 1], configs, fit);
    }
  }

  /** Collecting batches that cut `0 .. experiments - 1`, in any order, against evaluating those ids at once. */
  lemma CollectedScenario(grouped: map<int, Frame>, experiments: int, batches: seq<seq<int>>, completion: seq<int>,
                          configs: seq<MethodConfig>, fit: Fitter)
    requires GroupsValid(grouped)
    requires Flatten(batches) == Range(0, experiments)
    requires multiset(completion) == multiset(Range(0, |batches|))
    ensures forall i :: 0 <= i < |completion| ==> 0 <= completion[i] < |batches|
    ensures SameRows(Collected(grouped, batches, completion, configs, fit),
                     BatchRows(grouped, Range(0, experiments), configs, fit))
    ensures completion == Range(0, |batches|) ==>
      Collected(grouped, batches, completion, configs, fit) == BatchRows(grouped, Range(0, experiments), configs, fit)
  {
    var inOrder := Range(0, |batches|);
    RangeExactlyOnce(0, |batches|);
    forall i | 0 <= i < |completion|
      ensures 0 <= completion[i] < |batches|
    {
      assert completion[i] in multiset(inOrder);
    }
    CollectedPermutation(grouped, batches, completion, inOrder, configs, fit);
    CollectedInOrder(grouped, batches, |batches|, configs, fit);
    assert batches[..|batches|] == batches;
  }

  /** Collecting one more completed batch extends the collected rows by that batch's result. */
  lemma CollectedStep(grouped: map<int, Frame>, batches: seq<seq<int>>, order: seq<int>, k: nat,
                      configs: seq<MethodConfig>, fit: Fitter)
    requires GroupsValid(grouped)
    requires k < |order| && forall i :: 0 <= i < |order| ==> 0 <= order[i] < |batches|
    ensures Collected(grouped, batches, order[..k + 1], configs, fit)
         == AppendRows(Collected(grouped, batches, order[..k], configs, fit), BatchRows(grouped, batches[order[k]], configs, fit))
  {
    assert order[..k + 1][..k] == order[..k];
  }

  /**
   * `run_scenario` without the I/O: cut the ids `0 .. experiments - 1`
   * into batches, evaluate each batch with the harness, and extend the
   * results batch by batch in the order the batches complete; a failed
   * batch fails the scenario. Whatever that order, the scenario fails
   * exactly when evaluating all ids as one batch fails and otherwise
   * reports the same rows; completing in batch order it reports exactly
   * the rows of that single batch, in the same order.
   */
  method RunScenario(grouped: map<int, Frame>, experiments: int, maxWorkers: int,
                     configs: seq<MethodConfig>, fit: Fitter, completion: seq<int>)
    returns (r: Result<seq<ResultRow>>)
    requires GroupsValid(grouped) && maxWorkers >= 1
    requires multiset(completion) == multiset(Range(0, BatchCount(experiments, BatchSize(experiments, maxWorkers))))
    ensures SameRows(r, BatchRows(grouped, Range(0, experiments), configs, fit))
    ensures completion == Range(0, BatchCount(experiments, BatchSize(experiments, maxWorkers))) ==>
      r == BatchRows(grouped, Range(0, experiments), configs, fit)
  {
    var batchSize := BatchSize(experiments, maxWorkers);
    var batches := MakeBatches(experiments, batchSize);
    CollectedScenario(grouped, experiments, batches, completion, configs, fit);

    var results: seq<ResultRow> := [];
    for k := 0 to |completion|
      invariant Collected(grouped, batches, completion[..k], configs, fit) == Ok(results)
    {
      var batchResults := EvaluateExperimentsBatch(grouped, batches[completion[k]], configs, fit);
      CollectedStep(grouped, batches, completion, k, configs, fit);
      if batchResults.Err? {
        CollectedErr(grouped, batches, completion, k + 1, configs, fit);
        return batchResults;
      }
      results := results + batchResults.value;
    }
    assert completion[..|completion|] == completion;
    return Ok(results);
  }

  /**
   * Every non-negative experiment number in the column is among the ids
   * `0 .. count - 1` the scenario evaluates.
   */
  lemma ExperimentCountCovers(numbers: seq<int>)
    requires |numbers| > 0
    ensures forall x :: x in numbers && x >= 0 ==> x in Range(0, ExperimentCount(numbers).value)
  {
    RangeExactlyOnce(0, ExperimentCount(numbers).value);
  }

  /**
   * A scenario as the driver sets it up: the experiment count from the
   * `experiment_number` column and the worker count from the CPU count,
   * then `run_scenario`. An empty column has no count (pandas gives NaN and
   * `range` rejects it), and the run fails.
   */
  method RunConfiguredScenario(grouped: map<int, Frame>, numbers: seq<int>, cpuCount: int,
                               configs: seq<MethodConfig>, fit: Fitter, completion: seq<int>)
    returns (r: Result<seq<ResultRow>>)
    requires GroupsValid(grouped)
    requires |numbers| > 0 ==>
      var experiments := ExperimentCount(numbers).value;
      multiset(completion) == multiset(Range(0, BatchCount(experiments, BatchSize(experiments, MaxWorkers(cpuCount)))))
    ensures |numbers| == 0 ==> r == Err(EmptyColumn("experiment_number"))
    ensures |numbers| > 0 ==> SameRows(r, BatchRows(grouped, Range(0, ExperimentCount(numbers).value), configs, fit))
  {
    var count := ExperimentCount(numbers);
    if count.None? {
      return Err(EmptyColumn("experiment_number"));
    }
    r := RunScenario(grouped, count.value, MaxWorkers(cpuCount), configs, fit, completion);
  }
}
