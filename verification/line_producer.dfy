/** The line producer's dashboard (src/client/src/pages/LineProducerDashboard.tsx). */
module LineProducer {
  import opened Common
  import opened Vendors
  import opened ScriptBreakdown

  /** The page's state: the pasted script, the last breakdown, the vendor table and the status line. */
  datatype Page = Page(scriptText: string, breakdown: Option<Breakdown>, vendors: seq<Vendor>, message: string)

  const InitialPage := Page("", None, [], "")

  const EmptyScriptMessage := "Please paste a script to analyze."
  const AnalysingMessage := "Analyzing script using SpaCy NLP..."
  const AnalysedMessage := "Script analysis complete!"
  const AnalysisFailedPrefix := "Analysis failed: "
  const AnalysisNetworkMessage := "Network error during script analysis."
  const LoadingMessage := "Loading Localized Vendor Ratings..."
  const LoadedMessage := "LVR Data loaded successfully!"
  const LoadFailedMessage := "Failed to load LVR data."
  const LoadNetworkMessage := "Network error during LVR data retrieval."

  /** What `/api/lp/breakdown` answered: a breakdown, `success` false with a message, or no answer. */
  datatype BreakdownReply = Analysed(breakdown: Breakdown) | AnalysisRefused(message: string) | AnalysisUnreachable

  /** What `/api/lp/lvr` answered: the vendor list, `success` false, or no answer. */
  datatype VendorReply = Listed(vendors: seq<Vendor>) | ListRefused | ListUnreachable

  /** The result of pressing "Analyze Script": the new page and whether a request went out. */
  datatype Upload = Upload(page: Page, requested: bool)

  /** The textarea's `onChange`. */
  function EditScript(p: Page, text: string): (q: Page)
    ensures q.scriptText == text
    ensures q.breakdown == p.breakdown && q.vendors == p.vendors && q.message == p.message
  {
    p.(scriptText := text)
  }

  /**
   * `handleScriptUpload`: an empty script is refused on the page without a request;
   * otherwise the reply either replaces the breakdown or only changes the status line.
   */
  function HandleScriptUpload(p: Page, reply: BreakdownReply): (u: Upload)
    ensures u.requested <==> p.scriptText != ""
    ensures u.page.scriptText == p.scriptText && u.page.vendors == p.vendors
    ensures !u.requested ==> u.page.message == EmptyScriptMessage && u.page.breakdown == p.breakdown
    ensures u.requested && reply.Analysed? ==> u.page.breakdown == Some(reply.breakdown) && u.page.message == AnalysedMessage
    ensures u.requested && !reply.Analysed? ==> u.page.breakdown == p.breakdown
    ensures u.requested && reply.AnalysisRefused? ==> u.page.message == AnalysisFailedPrefix + reply.message
    ensures u.requested && reply.AnalysisUnreachable? ==> u.page.message == AnalysisNetworkMessage
  {
    if p.scriptText == "" then Upload(p.(message := EmptyScriptMessage), false)
    else
      var waiting := p.(message := AnalysingMessage);
      match reply
      case Analysed(b) => Upload(waiting.(breakdown := Some(b), message := AnalysedMessage), true)
      case AnalysisRefused(m) => Upload(waiting.(message := AnalysisFailedPrefix + m), true)
      case AnalysisUnreachable => Upload(waiting.(message := AnalysisNetworkMessage), true)
  }

  /**
   * `loadLVRData`: a listed reply replaces the table with the vendors ranked by score;
   * a refusal or a network error changes only the status line.
   */
  function LoadLvr(p: Page, reply: VendorReply): (q: Page)
    ensures q.scriptText == p.scriptText && q.breakdown == p.breakdown
    ensures reply.Listed? ==> q.vendors == RankByScore(reply.vendors)
    ensures reply.Listed? ==> NonIncreasing(q.vendors) && multiset(q.vendors) == multiset(reply.vendors)
    ensures reply.Listed? ==> q.message == LoadedMessage
    ensures !reply.Listed? ==> q.vendors == p.vendors
    ensures reply.ListRefused? ==> q.message == LoadFailedMessage
    ensures reply.ListUnreachable? ==> q.message == LoadNetworkMessage
  {
    var waiting := p.(message := LoadingMessage);
    match reply
    case Listed(vs) =>
      RankingIsPermutation(vs);
      waiting.(vendors := RankByScore(vs), message := LoadedMessage)
    case ListRefused => waiting.(message := LoadFailedMessage)
    case ListUnreachable => waiting.(message := LoadNetworkMessage)
  }

  /** The score cell's colour: green above 90, yellow otherwise. */
  function ScoreTone(v: Vendor): (t: Tone)
    ensures t == Green || t == Yellow
    ensures t == Green <==> v.lvrScore > 90
  {
    if v.lvrScore > 90 then Green else Yellow
  }

  /** The vendor table is drawn only when there is at least one vendor. */
  predicate ShowsTable(p: Page) {
    |p.vendors| > 0
  }

  /** The results panel is drawn only when a breakdown has arrived. */
  predicate ShowsBreakdown(p: Page) {
    p.breakdown.Some?
  }

  /** `breakdown.locations.slice(0, 3)`: the locations named on the panel. */
  function KeyLocations(b: Breakdown): (r: seq<string>)
    ensures |r| <= 3 && |r| <= |b.locations|
    ensures r <= b.locations
    ensures |b.locations| >= 3 ==> |r| == 3
    ensures |b.locations| < 3 ==> r == b.locations
  {
    if |b.locations| <= 3 then b.locations else b.locations[..3]
  }

  /** `breakdown.locations.length - 3`: the "(and N more)" count, negative for fewer than three locations. */
  function MoreLocations(b: Breakdown): (n: int)
    ensures n == |b.locations| - 3
    ensures n + |KeyLocations(b)| == |b.locations| || (|b.locations| < 3 && n < 0)
  {
    |b.locations| - 3
  }

  /** The named locations and the "more" count together account for every location once there are at least three. */
  lemma PanelCountsAllLocations(b: Breakdown)
    requires |b.locations| >= 3
    ensures |KeyLocations(b)| + MoreLocations(b) == |b.locations|
    ensures KeyLocations(b) + b.locations[3..] == b.locations
  {
  }

  /** With fewer than three locations the panel shows a negative "more" count: "(and -1 more)" for two. */
  lemma FewLocationsShowNegativeCount(b: Breakdown)
    requires |b.locations| < 3
    ensures MoreLocations(b) == |b.locations| - 3 < 0
    ensures KeyLocations(b) == b.locations
  {
  }

  /** Without the language model the breakdown always has at least five locations, so the count is at least two. */
  lemma MockBreakdownCountIsPositive(first: int, second: int, days: int)
    requires DrawsInRange(NoModel, first, second)
    ensures MoreLocations(Analyse(NoModel, first, second, days)) >= 2
  {
  }

  /** Pressing "Analyze Script" with an empty box changes nothing but the status line. */
  lemma EmptyScriptSendsNothing(p: Page, reply: BreakdownReply)
    requires p.scriptText == ""
    ensures HandleScriptUpload(p, reply) == Upload(p.(message := EmptyScriptMessage), false)
  {
  }

  /** The results panel appears after an analysis only if the server sent a breakdown, or one was already shown. */
  lemma PanelAfterUpload(p: Page, reply: BreakdownReply)
    ensures ShowsBreakdown(HandleScriptUpload(p, reply).page) <==> ShowsBreakdown(p) || (p.scriptText != "" && reply.Analysed?)
  {
  }

  /** Loading the server's seed list shows 95, 92, 85, 78 with the top two scores in green. */
  lemma SeedTable(p: Page)
    ensures LoadLvr(p, Listed(SeedVendors)).vendors == [SeedVendors[3], SeedVendors[0], SeedVendors[1], SeedVendors[2]]
    ensures ShowsTable(LoadLvr(p, Listed(SeedVendors)))
    ensures var vs := LoadLvr(p, Listed(SeedVendors)).vendors;
      [vs[0].lvrScore, vs[1].lvrScore, vs[2].lvrScore, vs[3].lvrScore] == [95, 92, 85, 78]
      && [ScoreTone(vs[0]), ScoreTone(vs[1]), ScoreTone(vs[2]), ScoreTone(vs[3])] == [Green, Green, Yellow, Yellow]
  {
    SeedRanking();
  }

  /** Loading the same list twice gives the same table as loading it once. */
  lemma ReloadIsStable(p: Page, vs: seq<Vendor>)
    ensures LoadLvr(LoadLvr(p, Listed(vs)), Listed(vs)) == LoadLvr(p, Listed(vs))
  {
  }

  /** An empty list from the server leaves no table on screen, though the load is reported as successful. */
  lemma EmptyListHidesTable(p: Page)
    ensures !ShowsTable(LoadLvr(p, Listed([])))
    ensures LoadLvr(p, Listed([])).message == LoadedMessage
  {
  }
}
