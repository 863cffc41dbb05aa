/**
 * One POST to the home page: the form is read into a record, engineered,
 * aligned on the training columns, transformed, voted on by every model and
 * summarised as the report kept in the session and rendered on the page.
 */
module Pipeline {
  import opened Wrappers
  import opened Dicts
  import opened Frames
  import opened Engineering
  import opened Alignment
  import opened Aggregation

  /** A fitted scikit-learn transformer (`PolynomialFeatures`, `StandardScaler`) applied to one row. */
  type Transform = seq<real> -> seq<real>

  /** What the page shows and the session keeps for the PDF report. */
  datatype Report = Report(inputs: Dict<real>, overallResult: string, detailed: Dict<string>, overallPct: int)

  /** The answer to the POST: a missing form field aborts the request, otherwise the results are rendered. */
  datatype Response = BadRequest | Rendered(report: Report)

  /**
   * The array `poly.transform` reads from the aligned frame: one number per
   * expected column, the engineered cell of that column or the fill value 0.
   */
  function AlignedVector(raw: Record, expected: seq<string>): (v: seq<real>)
    ensures |v| == |expected|
    ensures forall i :: 0 <= i < |expected| ==> Num(v[i]) == Fill(EngineeredRow(raw), expected[i])
  {
    var row := EngineeredRow(raw);
    EngineeredNumeric(raw);
    ReindexNumeric(row, expected);
    var aligned := Reindex(row, expected);
    assert forall i :: 0 <= i < |expected| ==> aligned[i].1 == Fill(row, expected[i]) by {
      forall i | 0 <= i < |expected| ensures aligned[i].1 == Fill(row, expected[i]) {
        ReindexAt(row, expected, i);
      }
    }
    Vector(aligned)
  }

  /** The feature vector the models see: `scaler.transform(poly.transform(df))` on the aligned row. */
  function ModelInput(raw: Record, expected: seq<string>, poly: Transform, scaler: Transform): seq<real> {
    scaler(poly(AlignedVector(raw, expected)))
  }

  /**
   * The POST branch of `home()`. The request is rejected exactly when a field
   * is missing; otherwise each model's verdict is reported under its name, the
   * percentage is the rounded share of positive votes, and the sentence
   * states that percentage.
   */
  method Home(form: map<string, real>, expected: seq<string>, poly: Transform, scaler: Transform,
              models: Dict<Classifier>) returns (resp: Response)
    requires UniqueKeys(models) && |models| > 0
    ensures resp.BadRequest? <==> exists f :: f in FeatureNames && f !in form
    ensures resp.Rendered? ==>
              var raw := RawRecord(form).value;
              var x := ModelInput(raw, expected, poly, scaler);
              && resp.report.inputs == Entries(raw)
              && resp.report.detailed == Verdicts(models, x)
              && resp.report.overallPct == Percent(Sum(Labels(models, x)), |models|)
              && resp.report.overallResult == Message(resp.report.overallPct)
  {
    var r := RawRecord(form);
    if r.None? {
      return BadRequest;
    }
    var raw := r.value;
    var row := Engineer(raw);
    EngineeredNumeric(raw);
    var aligned := Reindex(row, expected);
    ReindexNumeric(row, expected);
    var x := scaler(poly(Vector(aligned)));
    assert Vector(aligned) == AlignedVector(raw, expected);
    var detailed, positives := Aggregate(models, x);
    var pct := Percent(positives, |models|);
    resp := Rendered(Report(Entries(raw), Message(pct), detailed, pct));
  }

  /**
   * When every model answers 0 or 1, the percentage lies between 0 and 100 and
   * is the rounded share of models that answered 1.
   */
  lemma ReportPercent(models: Dict<Classifier>, x: seq<real>)
    requires |models| > 0 && Binary(Labels(models, x))
    ensures Percent(Sum(Labels(models, x)), |models|) == Percent(Count(Labels(models, x), 1), |models|)
    ensures 0 <= Percent(Sum(Labels(models, x)), |models|) <= 100
  {
    SumCountsPositives(Labels(models, x));
    PercentBounds(Sum(Labels(models, x)), |models|);
  }

  /** Three positive votes out of five are reported as 60%. */
  lemma ExampleVote()
    ensures Percent(3, 5) == 60
    ensures Message(Percent(3, 5)) == "60% chance that you have heart disease"
  {
    PercentOfFive(3);
    MessageSixty();
  }
}
