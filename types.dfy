/**
 * The closed records and enumerations that every screen and the session
 * state share: the ten views, a plant health assessment, a soil assessment,
 * a care tip and a history record. `null` in the application becomes `None`;
 * a call to the inference or translation service becomes an `Outcome`.
 */
module Types {

  /** A value that may be absent (the application's `T | null`). */
  datatype Option<+T> = None | Some(value: T)

  /** How one awaited service call settled: it resolved with a value or it threw. */
  datatype Outcome<+T> = Success(value: T) | Failure

  /** The screens of the application; `Home` is the initial one. */
  datatype View =
    | Home | Scan | Camera | Analyzing | Result
    | CareTips | History | SoilScan | AnalyzingSoil | SoilResult
  {
    /** The string each member of the enumeration stands for. */
    function Value(): string {
      match this
      case Home => "home"
      case Scan => "scan"
      case Camera => "camera"
      case Analyzing => "analyzing"
      case Result => "result"
      case CareTips => "careTips"
      case History => "history"
      case SoilScan => "soilScan"
      case AnalyzingSoil => "analyzingSoil"
      case SoilResult => "soilResult"
    }
  }

  /** Every view exactly once, in declaration order. */
  function AllViews(): (vs: seq<View>)
    ensures |vs| == 10
    ensures vs[0] == Home
    ensures forall i, j :: 0 <= i < j < |vs| ==> vs[i] != vs[j]
    ensures forall i, j :: 0 <= i < j < |vs| ==> vs[i].Value() != vs[j].Value()
  {
    [Home, Scan, Camera, Analyzing, Result, CareTips, History, SoilScan, AnalyzingSoil, SoilResult]
  }

  /** Every view is among `AllViews()`. */
  lemma AllViewsComplete(v: View)
    ensures v in AllViews()
  {
    match v
    case Home => assert AllViews()[0] == v;
    case Scan => assert AllViews()[1] == v;
    case Camera => assert AllViews()[2] == v;
    case Analyzing => assert AllViews()[3] == v;
    case Result => assert AllViews()[4] == v;
    case CareTips => assert AllViews()[5] == v;
    case History => assert AllViews()[6] == v;
    case SoilScan => assert AllViews()[7] == v;
    case AnalyzingSoil => assert AllViews()[8] == v;
    case SoilResult => assert AllViews()[9] == v;
  }

  /** The closed set of health verdicts a plant analysis can carry. */
  datatype HealthStatus = Healthy | Unhealthy | NeedsCare

  /** The literal string a health verdict is transmitted and stored as. */
  function HealthStatusText(h: HealthStatus): (s: string)
    ensures s in {"Healthy", "Unhealthy", "Needs Care"}
    ensures s == "Healthy" <==> h == Healthy
    ensures s == "Unhealthy" <==> h == Unhealthy
    ensures s == "Needs Care" <==> h == NeedsCare
  {
    match h
    case Healthy => "Healthy"
    case Unhealthy => "Unhealthy"
    case NeedsCare => "Needs Care"
  }

  datatype PotentialIssue = PotentialIssue(issue: string, description: string, remedy: string)

  /**
   * One plant health assessment. `confidence` is a number in the source and is
   * only carried here, never computed with.
   */
  datatype AnalysisResult = AnalysisResult(
    plantName: string,
    healthStatus: HealthStatus,
    confidence: real,
    potentialIssues: seq<PotentialIssue>,
    careRecommendations: seq<string>)

  datatype CareTip = CareTip(title: string, content: string, keyTakeaway: string)

  /** A durable record of one successful plant analysis. */
  datatype AnalysisHistoryItem = AnalysisHistoryItem(
    id: string,
    image: string,
    date: string,
    analysis: AnalysisResult)

  datatype RecommendedPlant = RecommendedPlant(plantName: string, reasoning: string)

  datatype SoilAnalysisResult = SoilAnalysisResult(
    soilType: string,
    description: string,
    recommendedPlants: seq<RecommendedPlant>)
}
