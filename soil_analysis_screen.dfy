/**
 * The soil result screen: the same four branches as the plant screen, in the
 * same order, with the soil report and its list of recommended plants.
 */
module SoilAnalysisScreen {
  import opened Types
  import opened ScreenParts
  import Loading

  /** The five progress messages of the soil loading indicator. */
  const LoadingMessages: seq<string> := [
    "Uploading soil photo...",
    "Analyzing soil composition...",
    "Identifying soil type...",
    "Finding suitable plants...",
    "Finalizing your report..."
  ]

  /**
   * The soil screen's indicator once its timer has fired up to `ticks` times
   * (it stops firing after the tick that finds the last message shown): the
   * message for `ticks`, capped at the last one.
   */
  method ProgressAfter(ticks: nat) returns (shown: string)
    ensures shown == LoadingMessages[Loading.Min(ticks, |LoadingMessages| - 1)]
    ensures ticks >= 4 ==> shown == "Finalizing your report..."
  {
    var indicator := new Loading.LoadingIndicator(LoadingMessages);
    var i := 0;
    while i < ticks && indicator.ticking
      invariant indicator.Valid() && indicator.messages == LoadingMessages
      invariant 0 <= i <= ticks && indicator.fired == i
    {
      indicator.Tick();
      i := i + 1;
    }
    Loading.IndexAfterTicks(i, |LoadingMessages|);
    shown := indicator.Message();
  }

  datatype SoilReport<A> = SoilReport(
    selector: SelectorProps,
    photo: Option<string>,
    soilType: string,
    description: string,
    plants: Section<RecommendedPlant>,
    done: Button<A>)

  datatype SoilView<A> =
    | Loading
    | Failed(message: string, retry: Button<A>)
    | NoResult(analyze: Button<A>)
    | Report(report: SoilReport<A>)

  /** The button a branch offers, if any. */
  function DoneButton<A>(v: SoilView<A>): Option<Button<A>> {
    match v
    case Loading => None
    case Failed(_, retry) => Some(retry)
    case NoResult(analyze) => Some(analyze)
    case Report(r) => Some(r.done)
  }

  /** The language-selector props a branch renders, if any. */
  function LanguageSelectorOf<A>(v: SoilView<A>): Option<SelectorProps> {
    match v
    case Report(r) => Some(r.selector)
    case _ => None
  }

  /** The screen for the given props. */
  function Render<A>(
    isLoading: bool, analysisResult: Option<SoilAnalysisResult>, image: Option<string>,
    onDoneAction: A, error: Option<string>,
    language: string, isTranslating: bool): (v: SoilView<A>)
    ensures v.Loading? <==> isLoading
    ensures v.Failed? <==> !isLoading && Truthy(error)
    ensures v.NoResult? <==> !isLoading && !Truthy(error) && analysisResult.None?
    ensures v.Report? <==> !isLoading && !Truthy(error) && analysisResult.Some?
    ensures v.Failed? ==> v.message == error.value && v.retry.caption == "Try Again"
    ensures v.NoResult? ==> v.analyze.caption == "Analyze Soil"
    ensures !v.Loading? ==> DoneButton(v).Some? && DoneButton(v).value.onClick == onDoneAction
    ensures LanguageSelectorOf(v).Some? <==> v.Report?
    ensures v.Report? ==>
      var r, a := v.report, analysisResult.value;
      && r.selector == SelectorProps(language, isTranslating)
      && (r.photo.Some? <==> Truthy(image)) && (r.photo.Some? ==> r.photo == image)
      && r.soilType == a.soilType && r.description == a.description
      && (r.plants.Shown? <==> |a.recommendedPlants| > 0)
      && (r.plants.Shown? ==> r.plants.entries == a.recommendedPlants)
      && r.done == Button("Analyze Another Soil", onDoneAction)
  {
    if isLoading then Loading
    else if Truthy(error) then Failed(error.value, Button("Try Again", onDoneAction))
    else if analysisResult.None? then NoResult(Button("Analyze Soil", onDoneAction))
    else
      var a := analysisResult.value;
      Report(SoilReport(
        SelectorProps(language, isTranslating),
        if Truthy(image) then image else None,
        a.soilType,
        a.description,
        SectionOf(a.recommendedPlants),
        Button("Analyze Another Soil", onDoneAction)))
  }
}
