/**
 * Tabular data shared by the simulator, the estimators and the evaluation
 * harness: a data frame as a row count plus named real-valued columns, the
 * record an OLS fit exposes, and the errors the core can raise.
 */
module Frames {

  /** The exceptions the core raises, as values. */
  datatype Error =
    | MissingColumn(column: string)        // a pandas KeyError on a column
    | MissingTerm(term: string)            // a KeyError on a fitted coefficient
    | EmptyColumn(column: string)          // an aggregate of an empty column (NaN in numpy)
    | ResidualLengthMismatch               // residuals that do not line up with the rows
    | FitFailed(reason: string)            // whatever the regression library raises
    | SelectionBiasWithoutCovariate        // the simulator's configuration assertion
    | NegativeScale(parameter: string)     // numpy's ValueError for a normal draw with scale < 0

  datatype Result<+T> = Ok(value: T) | Err(error: Error)

  datatype Option<+T> = None | Some(value: T)

  /**
   * A data frame. Every column is a sequence of reals; integer columns
   * (`is_treatment`, `experiment_number`) are held as whole reals.
   */
  datatype Frame = Frame(rows: nat, columns: map<string, seq<real>>) {

    /** Every column has one entry per row. */
    ghost predicate Valid() {
      forall c :: c in columns ==> |columns[c]| == rows
    }

    /** `df.assign(name=values)`: adds or replaces one column. */
    function Assign(name: string, values: seq<real>): (f: Frame)
      ensures f.rows == rows && f.columns.Keys == columns.Keys + {name}
      ensures f.columns[name] == values
      ensures forall c :: c in columns && c != name ==> f.columns[c] == columns[c]
      ensures Valid() && |values| == rows ==> f.Valid()
    {
      Frame(rows, columns[name := values])
    }
  }

  /** What a fitted OLS model exposes, keyed by term name. */
  datatype Fit = Fit(
    params: map<string, real>,
    pvalues: map<string, real>,
    confInt: map<string, (real, real)>,
    resid: seq<real>)

  /** The regression library, abstracted: fit `formula` to `frame`. */
  type Fitter = (Frame, string) -> Result<Fit>

  function Sum(s: seq<real>): real
  {
    if |s| == 0 then 0.0 else Sum(s[..|s| - 1]) + s[|s| - 1]
  }

  function Mean(s: seq<real>): real
    requires |s| > 0
  {
    Sum(s) / (|s| as real)
  }

  /** Adds the same constant to every entry. */
  function Shifted(s: seq<real>, c: real): (r: seq<real>)
    ensures |r| == |s|
    ensures forall i :: 0 <= i < |s| ==> r[i] - s[i] == c
  {
    seq(|s|, i requires 0 <= i < |s| => s[i] + c)
  }

  lemma {:induction false} SumShifted(s: seq<real>, c: real)
    ensures Sum(Shifted(s, c)) == Sum(s) + (|s| as real) * c
  {
    if |s| > 0 {
      var n := |s|;
      assert Shifted(s, c)[..n - 1] == Shifted(s[..n - 1], c);
      SumShifted(s[..n - 1], c);
    }
  }

  /** Shifting every entry by `c` shifts the mean by `c`. */
  lemma MeanShifted(s: seq<real>, c: real)
    requires |s| > 0
    ensures Mean(Shifted(s, c)) == Mean(s) + c
  {
    SumShifted(s, c);
    var n := |s| as real;
    calc {
      Mean(Shifted(s, c));
      (Sum(s) + n * c) / n;
      Sum(s) / n + c;
    }
  }
}
