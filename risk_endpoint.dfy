/** The risk endpoint's post-processing: the graph model's class probabilities for
    the user node (node 0) become a confidence, a risk score and two qualitative
    labels. The model's inference itself is an input to this module. */
module RiskEndpoint {
  import opened Rounding

  /** What running the model produced: the softmax rows, one per node, or an
      exception with its message. */
  datatype Inference = Probs(rows: seq<seq<real>>) | Raised(message: string)

  /** Why the endpoint answered with an error. */
  datatype ErrorCause =
    | ModelRaised(message: string)
    | NoUserRow      // `probs[0]` on an empty output
    | EmptyUserRow   // `np.max` of an empty row

  datatype RiskResponse =
    | Success(riskScore: real, confidence: real, relationalStability: string, volatilityExposure: string)
    | Error(cause: ErrorCause)

  /** `np.max`: the largest entry of a non-empty row. */
  function MaxOf(row: seq<real>): (m: real)
    requires |row| > 0
    ensures m in row
    ensures forall k :: 0 <= k < |row| ==> row[k] <= m
  {
    if |row| == 1 then row[0]
    else
      var rest := MaxOf(row[1..]);
      assert forall k :: 1 <= k < |row| ==> row[k] == row[1..][k - 1];
      if row[0] >= rest then row[0] else rest
  }

  function RelationalStability(confidence: real): string
  {
    if confidence > 0.7 then "High" else "Moderate"
  }

  function VolatilityExposure(riskScore: real): string
  {
    if riskScore < 0.3 then "Low" else "High"
  }

  /** `predict_risk`. */
  function PredictRisk(inf: Inference): (r: RiskResponse)
    ensures r.Success? <==> inf.Probs? && |inf.rows| > 0 && |inf.rows[0]| > 0
    ensures inf.Raised? ==> r == Error(ModelRaised(inf.message))
    ensures r.Success? ==> r.confidence == PyRound2(MaxOf(inf.rows[0]))
    ensures r.Success? ==> r.riskScore == PyRound2(1.0 - MaxOf(inf.rows[0]))
  {
    match inf
    case Raised(m) => Error(ModelRaised(m))
    case Probs(rows) =>
      if |rows| == 0 then Error(NoUserRow)
      else if |rows[0]| == 0 then Error(EmptyUserRow)
      else
        var confidence := MaxOf(rows[0]);
        var riskScore := PyRound2(1.0 - confidence);
        Success(riskScore, PyRound2(confidence), RelationalStability(confidence), VolatilityExposure(riskScore))
  }

  /** With ties going to even, the two rounded figures add up to exactly 1. */
  lemma RoundedComplement(c: real)
    ensures PyRound2(1.0 - c) + PyRound2(c) == 1.0
  {
    assert 100.0 * (1.0 - c) == 100 as real - 100.0 * c;
    RoundHalfEvenReflect(100, 100.0 * c);
  }

  /** Rounding keeps a probability a probability. */
  lemma PyRound2UnitInterval(x: real)
    requires 0.0 <= x <= 1.0
    ensures 0.0 <= PyRound2(x) <= 1.0
  {
    var k := RoundHalfEven(100.0 * x);
    assert 0 <= k <= 100;
  }

  /** On success the risk and the reported confidence add up to 1, both lie in
      [0, 1] when the row holds probabilities, and the volatility label is `Low`
      exactly when the reported (rounded) confidence exceeds 0.7. */
  lemma SuccessShape(inf: Inference)
    requires inf.Probs? && |inf.rows| > 0 && |inf.rows[0]| > 0
    ensures var r := PredictRisk(inf);
      r.Success?
      && r.riskScore + r.confidence == 1.0
      && (r.volatilityExposure == "Low" <==> r.confidence > 0.7)
      && (r.relationalStability == "High" <==> MaxOf(inf.rows[0]) > 0.7)
    ensures (forall k :: 0 <= k < |inf.rows[0]| ==> 0.0 <= inf.rows[0][k] <= 1.0) ==>
      0.0 <= PredictRisk(inf).riskScore <= 1.0 && 0.0 <= PredictRisk(inf).confidence <= 1.0
  {
    var c := MaxOf(inf.rows[0]);
    RoundedComplement(c);
    if forall k :: 0 <= k < |inf.rows[0]| ==> 0.0 <= inf.rows[0][k] <= 1.0 {
      PyRound2UnitInterval(c);
      PyRound2UnitInterval(1.0 - c);
    }
  }

  /** The stability label reads the raw confidence and the reported confidence is
      rounded: a user row peaking at 0.7004 is reported as confidence 0.7 yet
      labelled `High`, while the volatility label calls that same response `High`. */
  lemma RawAndRoundedLabelsDiverge()
    ensures var r := PredictRisk(Probs([[0.7004, 0.2996]]));
      r.Success? && r.confidence == 0.7 && r.riskScore == 0.3
      && r.relationalStability == "High" && r.volatilityExposure == "High"
  {
    var row := [0.7004, 0.2996];
    assert [[0.7004, 0.2996]][0] == row;
    assert MaxOf(row) == 0.7004 by {
      assert row[1..] == [0.2996];
    }
    assert RoundHalfEven(70.04) == 70 by {
      assert (70.04).Floor == 70;
      assert (70.54).Floor == 70;
    }
    assert RoundHalfEven(29.96) == 30 by {
      assert (29.96).Floor == 29;
      assert (30.46).Floor == 30;
    }
    assert 100.0 * 0.7004 == 70.04;
    assert 100.0 * (1.0 - 0.7004) == 29.96;
  }
}
