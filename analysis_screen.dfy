/**
 * The plant result screen. It shows exactly one of four branches, tested in
 * order: the loading indicator, the failure panel, the "No Result" panel, or
 * the full report. `A` is the type of the callback the done button invokes.
 */
module AnalysisScreen {
  import opened Types
  import opened ScreenParts
  import Loading

  /** The five progress messages of the plant loading indicator. */
  const LoadingMessages: seq<string> := [
    "Uploading plant photo...",
    "Identifying plant species...",
    "Scanning for potential issues...",
    "Compiling care recommendations...",
    "Finalizing your report..."
  ]

  /**
   * The plant screen's indicator once its timer has fired up to `ticks` times
   * (it stops firing after the tick that finds the last message shown): the
   * message for `ticks`, capped at the last one.
   */
  method ProgressAfter(ticks: nat) returns (shown: string)
    ensures shown == LoadingMessages[Loading.Min(ticks, |LoadingMessages| - 1)]
    ensures ticks >= 4 ==> shown == "Finalizing your report..."
  {
    var indicator := new Loading.LoadingIndicator(LoadingMessages);
    var i := 0;
    while i < ticks && indicator.ticking
      invariant indicator.Valid() && indicator.messages == LoadingMessages
      invariant 0 <= i <= ticks && indicator.fired == i
    {
      indicator.Tick();
      i := i + 1;
    }
    Loading.IndexAfterTicks(i, |LoadingMessages|);
    shown := indicator.Message();
  }

  datatype Tone = Green | Red | Yellow

  /** The coloured caption that shows a health verdict. */
  datatype Badge = Badge(caption: string, tone: Tone)

  /**
   * The badge for the `healthStatus` string a result carries: "Healthy" and
   * "Unhealthy" get their own badge, every other value the "Needs Care" one.
   */
  function HealthStatusBadge(status: string): (b: Badge)
    ensures status == "Healthy" ==> b == Badge("Healthy", Green)
    ensures status == "Unhealthy" ==> b == Badge("Unhealthy", Red)
    ensures status != "Healthy" && status != "Unhealthy" ==> b == Badge("Needs Care", Yellow)
  {
    if status == "Healthy" then Badge("Healthy", Green)
    else if status == "Unhealthy" then Badge("Unhealthy", Red)
    else Badge("Needs Care", Yellow)
  }

  /** Each of the three verdicts is labelled by its own text, with a distinct tone. */
  lemma BadgeShowsStatus(h: HealthStatus, g: HealthStatus)
    ensures HealthStatusBadge(HealthStatusText(h)).caption == HealthStatusText(h)
    ensures h != g ==> HealthStatusBadge(HealthStatusText(h)).tone != HealthStatusBadge(HealthStatusText(g)).tone
  {
  }

  /** The full report of one analysis (the confidence line is not modelled). */
  datatype PlantReport<A> = PlantReport(
    selector: SelectorProps,
    photo: Option<string>,
    plantName: string,
    badge: Badge,
    issues: Section<PotentialIssue>,
    recommendations: Section<string>,
    done: Button<A>)

  datatype PlantView<A> =
    | Loading
    | Failed(message: string, retry: Button<A>)
    | NoResult(scan: Button<A>)
    | Report(report: PlantReport<A>)

  /** The button a branch offers, if any. */
  function DoneButton<A>(v: PlantView<A>): Option<Button<A>> {
    match v
    case Loading => None
    case Failed(_, retry) => Some(retry)
    case NoResult(scan) => Some(scan)
    case Report(r) => Some(r.done)
  }

  /** The language-selector props a branch renders, if any. */
  function LanguageSelectorOf<A>(v: PlantView<A>): Option<SelectorProps> {
    match v
    case Report(r) => Some(r.selector)
    case _ => None
  }

  /** The screen for the given props. */
  function Render<A>(
    isLoading: bool, analysisResult: Option<AnalysisResult>, image: Option<string>,
    onDoneAction: A, onDoneLabel: string, error: Option<string>,
    language: string, isTranslating: bool): (v: PlantView<A>)
    ensures v.Loading? <==> isLoading
    ensures v.Failed? <==> !isLoading && Truthy(error)
    ensures v.NoResult? <==> !isLoading && !Truthy(error) && analysisResult.None?
    ensures v.Report? <==> !isLoading && !Truthy(error) && analysisResult.Some?
    ensures v.Failed? ==> v.message == error.value && v.retry.caption == "Try Again"
    ensures v.NoResult? ==> v.scan.caption == "Scan a Plant"
    ensures !v.Loading? ==> DoneButton(v).Some? && DoneButton(v).value.onClick == onDoneAction
    ensures LanguageSelectorOf(v).Some? <==> v.Report?
    ensures v.Report? ==>
      var r, a := v.report, analysisResult.value;
      && r.selector == SelectorProps(language, isTranslating)
      && (r.photo.Some? <==> Truthy(image)) && (r.photo.Some? ==> r.photo == image)
      && r.plantName == a.plantName
      && r.badge == HealthStatusBadge(HealthStatusText(a.healthStatus))
      && (r.issues.Shown? <==> |a.potentialIssues| > 0)
      && (r.issues.Shown? ==> r.issues.entries == a.potentialIssues)
      && (r.recommendations.Shown? <==> |a.careRecommendations| > 0)
      && (r.recommendations.Shown? ==> r.recommendations.entries == a.careRecommendations)
      && r.done == Button(onDoneLabel, onDoneAction)
  {
    if isLoading then Loading
    else if Truthy(error) then Failed(error.value, Button("Try Again", onDoneAction))
    else if analysisResult.None? then NoResult(Button("Scan a Plant", onDoneAction))
    else
      var a := analysisResult.value;
      Report(PlantReport(
        SelectorProps(language, isTranslating),
        if Truthy(image) then image else None,
        a.plantName,
        HealthStatusBadge(HealthStatusText(a.healthStatus)),
        SectionOf(a.potentialIssues),
        SectionOf(a.careRecommendations),
        Button(onDoneLabel, onDoneAction)))
  }
}
