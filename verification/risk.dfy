/**
 * Post-processing of the risk model's prediction (`predict_risk_score` in
 * src/server/src/ai_service.py and server/src/ai_service.py). The Ridge model, the
 * `float(...)` casts and the float-to-int truncation are inputs.
 */
module Risk {
  import Common

  datatype Status = Red | Yellow | Green | Failed

  /** The status strings the server sends: `Failed` is sent as `Error`. */
  function StatusName(s: Status): string {
    match s
    case Red => "RED"
    case Yellow => "YELLOW"
    case Green => "GREEN"
    case Failed => "Error"
  }

  datatype Analysis = Analysis(riskScore: int, status: Status, suggestion: string)

  /** How `float(x)` fared on the three inputs: all numbers, a `ValueError`, or another exception. */
  datatype Cast = Numeric | NotNumeric | CastRaised(message: string)

  /** What predicting and truncating to `int` gave: an integer, or an exception. */
  datatype Prediction = Predicted(value: int) | PredictionRaised(message: string)

  const RedAdvice := "IMMEDIATE EXECUTIVE " + "INTERVENTION: Project is in critical risk zone. Review major budget lines and staffing immediately."
  const YellowAdvice := "CAUTION: " + "Budget variance is concerning. Focus on optimizing the next 5 days of shooting schedule and re-negotiate high-cost vendor contracts."
  const GreenAdvice := "Project is " + "on track. Maintain current efficiency and monitor daily progress reports closely."

  /** `max(0, min(100, p))`. */
  function Clamp(p: int): (score: int)
    ensures 0 <= score <= 100
    ensures 0 <= p <= 100 ==> score == p
    ensures p < 0 ==> score == 0
    ensures p > 100 ==> score == 100
  {
    if p < 0 then 0 else if p > 100 then 100 else p
  }

  /** Above 80 is red, above 50 yellow, anything else green. */
  function Classify(score: int): (s: Status)
    ensures s != Failed
    ensures s == Red <==> score > 80
    ensures s == Yellow <==> 50 < score <= 80
    ensures s == Green <==> score <= 50
  {
    if score > 80 then Red else if score > 50 then Yellow else Green
  }

  /**
   * The fixed suggestion for each status: red calls for executive intervention, yellow
   * is a caution, green says the project is on track.
   */
  function Advice(s: Status): (a: string)
    requires s != Failed
    ensures s == Red ==> |a| > 20 && a[..20] == "IMMEDIATE EXECUTIVE "
    ensures s == Yellow ==> |a| > 9 && a[..9] == "CAUTION: "
    ensures s == Green ==> |a| > 11 && a[..11] == "Project is "
  {
    match s
    case Red => RedAdvice
    case Yellow => YellowAdvice
    case Green => GreenAdvice
  }

  /** How severe a status is, for comparing two assessments. */
  function Severity(s: Status): nat {
    match s
    case Green => 0
    case Yellow => 1
    case Red => 2
    case Failed => 0
  }

  /** The assessment of a successful prediction: clamped score, its status and that status's advice. */
  function Assess(p: int): (a: Analysis)
    ensures 0 <= a.riskScore <= 100
    ensures a.status != Failed && a.suggestion == Advice(a.status)
    ensures a.status == Red <==> p > 80
    ensures a.status == Yellow <==> 50 < p <= 80
    ensures a.status == Green <==> p <= 50
  {
    var score := Clamp(p);
    var s := Classify(score);
    Analysis(score, s, Advice(s))
  }

  /**
   * The current server's `predict_risk_score`: non-numeric input and a failing
   * prediction both give score 0 with status `Error`; another cast exception escapes.
   */
  function Predict(cast: Cast, prediction: Prediction): (r: Common.Result<Analysis>)
    ensures r.Raised? <==> cast.CastRaised?
    ensures r.Ok? && r.value.status == Failed ==> r.value.riskScore == 0
    ensures r.Ok? && r.value.status == Failed <==> cast.NotNumeric? || (cast.Numeric? && prediction.PredictionRaised?)
  {
    match cast
    case NotNumeric => Common.Ok(Analysis(0, Failed, "Invalid input data. All inputs must be numeric."))
    case CastRaised(m) => Common.Raised(m)
    case Numeric =>
      match prediction
      case Predicted(p) => Common.Ok(Assess(p))
      case PredictionRaised(m) => Common.Ok(Analysis(0, Failed, "Prediction failed: " + m))
  }

  /** The older server's version: only a `ValueError` in the casts is caught. */
  function LegacyPredict(cast: Cast, prediction: Prediction): (r: Common.Result<Analysis>)
    ensures r.Raised? <==> cast.CastRaised? || (cast.Numeric? && prediction.PredictionRaised?)
    ensures r.Ok? && r.value.status == Failed <==> cast.NotNumeric?
  {
    match cast
    case NotNumeric => Common.Ok(Analysis(0, Failed, "Invalid input data."))
    case CastRaised(m) => Common.Raised(m)
    case Numeric =>
      match prediction
      case Predicted(p) => Common.Ok(Assess(p))
      case PredictionRaised(m) => Common.Raised(m)
  }

  /** A higher prediction never yields a milder status. */
  lemma AssessMonotone(p: int, q: int)
    requires p <= q
    ensures Severity(Assess(p).status) <= Severity(Assess(q).status)
    ensures Assess(p).riskScore <= Assess(q).riskScore
  {
  }

  /** The boundaries: 80 is still yellow and 50 still green; the clamp keeps 0 and 100 reachable. */
  lemma Thresholds()
    ensures Assess(80).status == Yellow && Assess(81).status == Red
    ensures Assess(50).status == Green && Assess(51).status == Yellow
    ensures Assess(-7).riskScore == 0 && Assess(250).riskScore == 100
  {
  }

  /** The three statuses of a successful prediction carry three different suggestions and names. */
  lemma AdviceDistinct(s: Status, t: Status)
    requires s != Failed && t != Failed && s != t
    ensures Advice(s) != Advice(t)
    ensures StatusName(s) != StatusName(t)
  {
    assert RedAdvice[0] == 'I' && YellowAdvice[0] == 'C' && GreenAdvice[0] == 'P';
  }

  /** Both versions agree whenever the casts and the prediction succeed. */
  lemma VersionsAgreeOnSuccess(p: int)
    ensures Predict(Numeric, Predicted(p)) == LegacyPredict(Numeric, Predicted(p)) == Common.Ok(Assess(p))
  {
  }
}
