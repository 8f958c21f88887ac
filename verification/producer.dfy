/** The producer's risk meter page (src/client/src/pages/ProducerDashboard.tsx). */
module Producer {
  import opened Common
  import opened Forms
  import Risk
  import ServerApi

  /** What `parseFloat` made of an input: a number, or `NaN`. */
  datatype Number = Num(value: real) | NotANumber

  const InitialForm: Form<Number> := map["days_behind" := Num(1.0), "cost_variance_pct" := Num(5.0), "complexity_score" := Num(75.0)]

  /** The page's state: the three inputs, the last assessment shown and the status line. */
  datatype Page = Page(form: Form<Number>, analysis: Option<Risk.Analysis>, message: string)

  const InitialPage := Page(InitialForm, None, "")

  const RunningMessage := "Running Scikit-learn Risk Prediction..."
  const CompleteMessage := "Risk analysis complete!"
  const FailedPrefix := "Risk analysis failed: "
  const NetworkMessage := "Network error during risk analysis."

  /** What `/api/ceo/risk_meter` answered: an assessment, `success` false with a message, or no answer. */
  datatype RiskReply = Assessed(analysis: Risk.Analysis) | RiskRefused(message: string) | RiskUnreachable

  /** `handleChange`: the named input takes `parseFloat` of what was typed. */
  function HandleChange(p: Page, name: string, parsed: Number): (q: Page)
    ensures q.form == Update(p.form, name, parsed)
    ensures q.analysis == p.analysis && q.message == p.message
  {
    p.(form := Update(p.form, name, parsed))
  }

  /** `getColor`: `RED` is red, `YELLOW` yellow, and every other status green. */
  function GetColor(status: string): (t: Tone)
    ensures t == Red <==> status == "RED"
    ensures t == Yellow <==> status == "YELLOW"
    ensures t == Green <==> status != "RED" && status != "YELLOW"
  {
    if status == "RED" then Red else if status == "YELLOW" then Yellow else Green
  }

  /** The request `runRiskMeter` sends and the page it leaves behind. */
  datatype Run = Run(body: Form<Number>, page: Page)

  /**
   * `runRiskMeter`: the body is the form as it stands; an assessment replaces the one
   * shown, and a refusal or a network error changes only the status line.
   */
  function RunRiskMeter(p: Page, reply: RiskReply): (r: Run)
    ensures r.body == p.form && r.page.form == p.form
    ensures reply.Assessed? ==> r.page.analysis == Some(reply.analysis) && r.page.message == CompleteMessage
    ensures !reply.Assessed? ==> r.page.analysis == p.analysis
    ensures reply.RiskRefused? ==> r.page.message == FailedPrefix + reply.message
    ensures reply.RiskUnreachable? ==> r.page.message == NetworkMessage
  {
    var waiting := p.(message := RunningMessage);
    match reply
    case Assessed(a) => Run(p.form, waiting.(analysis := Some(a), message := CompleteMessage))
    case RiskRefused(m) => Run(p.form, waiting.(message := FailedPrefix + m))
    case RiskUnreachable => Run(p.form, waiting.(message := NetworkMessage))
  }

  /** The three inputs the page posts, in the order the predictor casts them. */
  const Inputs: seq<string> := ["days_behind", "cost_variance_pct", "complexity_score"]

  /** Some input holds `NaN`, which `JSON.stringify` sends as `null`. */
  predicate HasNaN(body: Form<Number>) {
    exists i :: 0 <= i < |Inputs| && Inputs[i] in body && body[Inputs[i]] == NotANumber
  }

  /**
   * How the predictor's `float(...)` casts fare on the body this page sends: a number
   * always casts, and `float(None)` raises a `TypeError` (whose text is `typeError`),
   * which is not the `ValueError` the predictor catches.
   */
  function CastOfBody(body: Form<Number>, typeError: string): (c: Risk.Cast)
    ensures !c.NotNumeric?
    ensures c.CastRaised? <==> HasNaN(body)
    ensures c.CastRaised? ==> c.message == typeError
  {
    if HasNaN(body) then Risk.CastRaised(typeError) else Risk.Numeric
  }

  /** What `runRiskMeter` reads from a response: `success` with an assessment, a failure with its message, or no JSON. */
  function AsRiskReply(r: ServerApi.Response): (reply: RiskReply)
    ensures reply.Assessed? <==> r.body.RiskReady?
    ensures reply.Assessed? ==> reply.analysis == r.body.analysis
    ensures r.body.Fail? ==> reply == RiskRefused(r.body.message)
  {
    match r.body
    case RiskReady(a) => Assessed(a)
    case Fail(m) => RiskRefused(m)
    case _ => RiskUnreachable
  }

  /**
   * Clearing an input makes it `NaN`; the server's cast then raises a `TypeError` that
   * the route answers with a 500, and the page shows the failure and keeps the panel it had.
   */
  lemma EmptiedInputFails(p: Page, i: nat, prediction: Risk.Prediction, data: ServerApi.Request, typeError: string)
    requires i < |Inputs| && Inputs[i] in p.form && p.form[Inputs[i]] == NotANumber
    requires ServerApi.HasAll(data, ServerApi.RiskFields)
    ensures var h := ServerApi.RiskMeter(data, Risk.Predict(CastOfBody(p.form, typeError), prediction));
      && h.response == ServerApi.Response(500, ServerApi.Fail(typeError))
      && RunRiskMeter(p, AsRiskReply(h.response)).page == p.(message := FailedPrefix + typeError)
  {
    assert HasNaN(p.form);
  }

  /** The colour the assessment panel uses for a status the server sends. */
  lemma StatusColours(s: Risk.Status)
    ensures GetColor(Risk.StatusName(s)) == match s
      case Red => Red
      case Yellow => Yellow
      case Green => Green
      case Failed => Green
  {
  }

  /**
   * An `Error` assessment is drawn in green, like a healthy project. It comes from an
   * input `float` rejects with a `ValueError` (a non-numeric string, which this page
   * never sends) or from a failed prediction.
   */
  lemma ErrorDrawnGreen(cast: Risk.Cast, prediction: Risk.Prediction)
    requires cast.NotNumeric? || (cast.Numeric? && prediction.PredictionRaised?)
    ensures Risk.Predict(cast, prediction).Ok?
    ensures GetColor(Risk.StatusName(Risk.Predict(cast, prediction).value.status)) == Green
  {
  }

  /** A successful prediction is drawn red exactly above 80. */
  lemma RedMeansAbove80(p: int)
    ensures GetColor(Risk.StatusName(Risk.Assess(p).status)) == Red <==> p > 80
  {
  }

  /** The assessment panel is on screen after a run exactly when the reply carried one or one was already shown. */
  lemma PanelAfterRun(p: Page, reply: RiskReply)
    ensures RunRiskMeter(p, reply).page.analysis.Some? <==> p.analysis.Some? || reply.Assessed?
  {
  }

  /** Editing an input touches that input only, and the initial form has exactly the three inputs. */
  lemma ChangeTouchesOneInput(p: Page, name: string, parsed: Number, other: string)
    requires other in p.form && other != name
    ensures HandleChange(p, name, parsed).form[other] == p.form[other]
    ensures InitialForm.Keys == {"days_behind", "cost_variance_pct", "complexity_score"}
  {
  }
}
