/**
 * The application's session: the screen, the image, the scan mode, one group
 * of result/translation/loading/error slots per workflow, the language and
 * the history, updated in place by the event handlers, and the pure choice of
 * what to render from them.
 *
 * Each handler that awaits a service is split at its `await`: a `Start…`
 * method does the updates before the call, a `Settle…` method consumes the
 * call's `Outcome` and does the updates after it (including the `finally`),
 * and a method named after the handler runs the two back to back.
 */
module App {
  import opened Types
  import opened Languages
  import opened ScreenParts
  import AnalysisScreen
  import SoilAnalysisScreen

  const PlantAnalysisError: string := "Sorry, we couldn't analyze your plant. Please try again."
  const SoilAnalysisError: string := "Sorry, we couldn't analyze your soil. Please try again."
  const TipsFetchError: string := "Could not fetch care tips. Please try again later."

  /** Which analysis the camera screen submits its capture to. */
  datatype ScanMode = PlantMode | SoilMode

  /** The three workflows whose results can be translated. */
  datatype Workflow = PlantWorkflow | TipsWorkflow | SoilWorkflow

  /** The session's callbacks, as screens receive them. */
  datatype Handler =
    | AnalyzeRequest | AnalyzeSoilRequest | NavigateToScan | NavigateToSoilScan
    | NavigateToCamera | BackToScan | BackToHome | NavigateToCareTips
    | LanguageChange | NavigateToHistory | ViewHistoryItem | ClearHistory

  /** The plant-analysis hooks, and whether the result came from the history. */
  datatype PlantState = PlantState(
    analysisResult: Option<AnalysisResult>,
    translatedAnalysisResult: Option<AnalysisResult>,
    isAnalyzing: bool,
    analysisError: Option<string>,
    isViewingHistoryDetail: bool)

  /** The soil-analysis hooks. */
  datatype SoilState = SoilState(
    soilAnalysisResult: Option<SoilAnalysisResult>,
    translatedSoilAnalysisResult: Option<SoilAnalysisResult>,
    isAnalyzingSoil: bool,
    soilAnalysisError: Option<string>)

  /** The care-tips hooks. */
  datatype TipsState = TipsState(
    careTips: Option<seq<CareTip>>,
    translatedCareTips: Option<seq<CareTip>>,
    isLoadingTips: bool,
    tipsError: Option<string>)

  /** A value snapshot of every hook of the component, grouped by workflow. */
  datatype SessionState = SessionState(
    view: View,
    image: Option<string>,
    scanMode: ScanMode,
    plant: PlantState,
    soil: SoilState,
    tips: TipsState,
    language: string,
    isTranslating: bool,
    history: seq<AnalysisHistoryItem>)

  /** The state every session starts in. */
  function InitialState(): (s: SessionState)
    ensures s.view == Home && s.language == BaseLanguage && s.history == []
    ensures s.image.None? && s.plant.analysisResult.None? && s.soil.soilAnalysisResult.None?
    ensures s.tips.careTips.None?
    ensures !s.plant.isAnalyzing && !s.soil.isAnalyzingSoil && !s.tips.isLoadingTips && !s.isTranslating
  {
    SessionState(Home, None, PlantMode,
                 PlantState(None, None, false, None, false),
                 SoilState(None, None, false, None),
                 TipsState(None, None, false, None),
                 DefaultLanguage(), false, [])
  }

  /** `translated || original`: a translation, when present, replaces the original. */
  function Preferred<T>(translated: Option<T>, original: Option<T>): (shown: Option<T>)
    ensures translated.Some? ==> shown == translated
    ensures translated.None? ==> shown == original
    ensures shown.Some? <==> translated.Some? || original.Some?
  {
    if translated.Some? then translated else original
  }

  /** Where the plant screen's done button leads. */
  function DoneAction(isViewingHistoryDetail: bool): (h: Handler)
    ensures h == NavigateToHistory <==> isViewingHistoryDetail
    ensures h == NavigateToScan <==> !isViewingHistoryDetail
  {
    if isViewingHistoryDetail then NavigateToHistory else NavigateToScan
  }

  /** The caption of the plant screen's done button. */
  function DoneLabel(isViewingHistoryDetail: bool): (caption: string)
    ensures caption == "Back to History" <==> isViewingHistoryDetail
    ensures caption == "Scan Another Plant" <==> !isViewingHistoryDetail
  {
    if isViewingHistoryDetail then "Back to History" else "Scan Another Plant"
  }

  /**
   * The one workflow whose result a language change translates: the one on
   * screen, and only if it has a result.
   */
  function TranslationTarget(s: SessionState): (w: Option<Workflow>)
    ensures w == Some(PlantWorkflow) <==> (s.view == Result || s.view == Analyzing) && s.plant.analysisResult.Some?
    ensures w == Some(TipsWorkflow) <==> s.view == CareTips && s.tips.careTips.Some?
    ensures w == Some(SoilWorkflow) <==>
      (s.view == SoilResult || s.view == AnalyzingSoil) && s.soil.soilAnalysisResult.Some?
  {
    if (s.view == Result || s.view == Analyzing) && s.plant.analysisResult.Some? then Some(PlantWorkflow)
    else if s.view == CareTips && s.tips.careTips.Some? then Some(TipsWorkflow)
    else if (s.view == SoilResult || s.view == AnalyzingSoil) && s.soil.soilAnalysisResult.Some? then Some(SoilWorkflow)
    else None
  }

  /** The three translated slots of a state. */
  datatype Translations = Translations(
    plant: Option<AnalysisResult>, tips: Option<seq<CareTip>>, soil: Option<SoilAnalysisResult>)

  function TranslationsOf(s: SessionState): Translations {
    Translations(s.plant.translatedAnalysisResult, s.tips.translatedCareTips, s.soil.translatedSoilAnalysisResult)
  }

  /** `s` with its three translated slots replaced by `t`. */
  function WithTranslations(s: SessionState, t: Translations): SessionState {
    s.(plant := s.plant.(translatedAnalysisResult := t.plant),
       tips := s.tips.(translatedCareTips := t.tips),
       soil := s.soil.(translatedSoilAnalysisResult := t.soil))
  }

  /**
   * The state once a translation of `target` is in flight: the two other
   * workflows' translations are gone; the target's own is kept until the
   * call settles; nothing else but the in-flight mark changes.
   */
  function TranslationBegun(s: SessionState, target: Option<Workflow>): (t: SessionState)
    ensures t.isTranslating
    ensures TranslationsOf(t) == Translations(
      if target.Some? && target != Some(PlantWorkflow) then None else s.plant.translatedAnalysisResult,
      if target.Some? && target != Some(TipsWorkflow) then None else s.tips.translatedCareTips,
      if target.Some? && target != Some(SoilWorkflow) then None else s.soil.translatedSoilAnalysisResult)
    ensures WithTranslations(t, TranslationsOf(s)).(isTranslating := s.isTranslating) == s
  {
    match target
    case Some(PlantWorkflow) =>
      s.(isTranslating := true, tips := s.tips.(translatedCareTips := None),
         soil := s.soil.(translatedSoilAnalysisResult := None))
    case Some(TipsWorkflow) =>
      s.(isTranslating := true, plant := s.plant.(translatedAnalysisResult := None),
         soil := s.soil.(translatedSoilAnalysisResult := None))
    case Some(SoilWorkflow) =>
      s.(isTranslating := true, plant := s.plant.(translatedAnalysisResult := None),
         tips := s.tips.(translatedCareTips := None))
    case None => s.(isTranslating := true)
  }

  /**
   * The state once the translation call of `target`'s workflow settles: only
   * that workflow's translated slot can change, and only on success; the
   * in-flight mark is cleared either way; nothing else changes.
   */
  function TranslationSettled(s: SessionState, target: Option<Workflow>, plant: Outcome<AnalysisResult>,
                              tips: Outcome<seq<CareTip>>, soil: Outcome<SoilAnalysisResult>): (t: SessionState)
    ensures !t.isTranslating
    ensures TranslationsOf(t) == Translations(
      if target == Some(PlantWorkflow) && plant.Success? then Some(plant.value) else s.plant.translatedAnalysisResult,
      if target == Some(TipsWorkflow) && tips.Success? then Some(tips.value) else s.tips.translatedCareTips,
      if target == Some(SoilWorkflow) && soil.Success? then Some(soil.value) else s.soil.translatedSoilAnalysisResult)
    ensures WithTranslations(t, TranslationsOf(s)).(isTranslating := s.isTranslating) == s
  {
    if target == Some(PlantWorkflow) && plant.Success? then
      s.(isTranslating := false, plant := s.plant.(translatedAnalysisResult := Some(plant.value)))
    else if target == Some(TipsWorkflow) && tips.Success? then
      s.(isTranslating := false, tips := s.tips.(translatedCareTips := Some(tips.value)))
    else if target == Some(SoilWorkflow) && soil.Success? then
      s.(isTranslating := false, soil := s.soil.(translatedSoilAnalysisResult := Some(soil.value)))
    else
      s.(isTranslating := false)
  }

  /**
   * A change to a language other than the base one, start to finish: the
   * workflow on screen gets the translation on success and keeps its earlier
   * one on failure, the two other translations are gone, no translation is
   * left in flight, and nothing but the language and the translations changes.
   */
  lemma TranslationReplacesOnlyTarget(s: SessionState, newLanguage: string, plant: Outcome<AnalysisResult>,
                                      tips: Outcome<seq<CareTip>>, soil: Outcome<SoilAnalysisResult>)
    ensures var target := TranslationTarget(s);
      var t := TranslationSettled(TranslationBegun(s.(language := newLanguage), target), target, plant, tips, soil);
      var before := TranslationsOf(s);
      && !t.isTranslating
      && WithTranslations(t, before).(isTranslating := s.isTranslating) == s.(language := newLanguage)
      && TranslationsOf(t) == match target
        case Some(PlantWorkflow) => Translations(if plant.Success? then Some(plant.value) else before.plant, None, None)
        case Some(TipsWorkflow) => Translations(None, if tips.Success? then Some(tips.value) else before.tips, None)
        case Some(SoilWorkflow) => Translations(None, None, if soil.Success? then Some(soil.value) else before.soil)
        case None => before
  {
  }

  /**
   * A failed translation leaves the screen showing what it showed before,
   * now under the new language: the slot on screen keeps its earlier content,
   * and only slots not on screen are cleared.
   */
  lemma FailedTranslationKeepsScreen(s: SessionState, newLanguage: string)
    requires newLanguage != BaseLanguage && !s.isTranslating
    ensures var target := TranslationTarget(s);
      RenderView(TranslationSettled(TranslationBegun(s.(language := newLanguage), target),
                                    target, Failure, Failure, Failure))
      == RenderView(s.(language := newLanguage))
  {
  }

  /**
   * A successful translation of the plant result on a plant screen replaces
   * what the report shows by the translated result.
   */
  lemma TranslatedReportShown(s: SessionState, newLanguage: string, translated: AnalysisResult,
                              tips: Outcome<seq<CareTip>>, soil: Outcome<SoilAnalysisResult>)
    requires newLanguage != BaseLanguage
    requires (s.view == Result || s.view == Analyzing) && s.plant.analysisResult.Some?
    ensures var target := TranslationTarget(s);
      var t := TranslationSettled(TranslationBegun(s.(language := newLanguage), target),
                                  target, Success(translated), tips, soil);
      RenderView(t) == PlantResultScreen(AnalysisScreen.Render(
        s.plant.isAnalyzing, Some(translated), s.image,
        DoneAction(s.plant.isViewingHistoryDetail), DoneLabel(s.plant.isViewingHistoryDetail),
        s.plant.analysisError, newLanguage, false))
  {
  }

  /** The screen `renderView` puts up, with the props it passes. */
  datatype Screen =
    | HomeScreen
    | ScanScreen(scanError: Option<string>)
    | SoilScanScreen(soilScanError: Option<string>)
    | CameraScreen(onAnalyze: Handler, onBack: Handler)
    | CareTipsScreen(tips: Option<seq<CareTip>>, tipsLoading: bool, tipsError: Option<string>,
                     tipsLanguage: string, tipsTranslating: bool)
    | HistoryScreen(items: seq<AnalysisHistoryItem>)
    | PlantResultScreen(plant: AnalysisScreen.PlantView<Handler>)
    | SoilResultScreen(soil: SoilAnalysisScreen.SoilView<Handler>)

  /** The whole page: the back-to-home button, if shown, and the screen. */
  datatype Page = Page(backButton: bool, screen: Screen)

  /** Which screen each view shows, and what it is given to display. */
  function RenderView(s: SessionState): (scr: Screen)
    ensures scr.HomeScreen? <==> s.view == Home
    ensures scr.ScanScreen? <==> s.view == Scan
    ensures scr.SoilScanScreen? <==> s.view == SoilScan
    ensures scr.CameraScreen? <==> s.view == Camera
    ensures scr.CareTipsScreen? <==> s.view == CareTips
    ensures scr.HistoryScreen? <==> s.view == History
    ensures scr.PlantResultScreen? <==> s.view == Analyzing || s.view == Result
    ensures scr.SoilResultScreen? <==> s.view == AnalyzingSoil || s.view == SoilResult
    ensures scr.ScanScreen? ==> scr.scanError == s.plant.analysisError
    ensures scr.SoilScanScreen? ==> scr.soilScanError == s.soil.soilAnalysisError
    ensures scr.CameraScreen? ==>
      scr == CameraScreen(if s.scanMode == PlantMode then AnalyzeRequest else AnalyzeSoilRequest, BackToScan)
    ensures scr.CareTipsScreen? ==>
      scr == CareTipsScreen(Preferred(s.tips.translatedCareTips, s.tips.careTips), s.tips.isLoadingTips,
                            s.tips.tipsError, s.language, s.isTranslating)
    ensures scr.HistoryScreen? ==> scr.items == s.history
    ensures scr.PlantResultScreen? ==>
      scr.plant == AnalysisScreen.Render(
        s.plant.isAnalyzing, Preferred(s.plant.translatedAnalysisResult, s.plant.analysisResult), s.image,
        DoneAction(s.plant.isViewingHistoryDetail), DoneLabel(s.plant.isViewingHistoryDetail),
        s.plant.analysisError, s.language, s.isTranslating)
    ensures scr.SoilResultScreen? ==>
      scr.soil == SoilAnalysisScreen.Render(
        s.soil.isAnalyzingSoil, Preferred(s.soil.translatedSoilAnalysisResult, s.soil.soilAnalysisResult),
        s.image, NavigateToSoilScan, s.soil.soilAnalysisError, s.language, s.isTranslating)
  {
    match s.view
    case Home => HomeScreen
    case Scan => ScanScreen(s.plant.analysisError)
    case SoilScan => SoilScanScreen(s.soil.soilAnalysisError)
    case Camera => CameraScreen(if s.scanMode == PlantMode then AnalyzeRequest else AnalyzeSoilRequest, BackToScan)
    case CareTips =>
      CareTipsScreen(Preferred(s.tips.translatedCareTips, s.tips.careTips), s.tips.isLoadingTips,
                     s.tips.tipsError, s.language, s.isTranslating)
    case History => HistoryScreen(s.history)
    case Analyzing | Result =>
      PlantResultScreen(AnalysisScreen.Render(
        s.plant.isAnalyzing, Preferred(s.plant.translatedAnalysisResult, s.plant.analysisResult), s.image,
        DoneAction(s.plant.isViewingHistoryDetail), DoneLabel(s.plant.isViewingHistoryDetail),
        s.plant.analysisError, s.language, s.isTranslating))
    case AnalyzingSoil | SoilResult =>
      SoilResultScreen(SoilAnalysisScreen.Render(
        s.soil.isAnalyzingSoil, Preferred(s.soil.translatedSoilAnalysisResult, s.soil.soilAnalysisResult),
        s.image, NavigateToSoilScan, s.soil.soilAnalysisError, s.language, s.isTranslating))
  }

  /** The page for a session state; the back button is hidden on Home and Camera. */
  function RenderPage(s: SessionState): (p: Page)
    ensures p.backButton <==> s.view != Home && s.view != Camera
    ensures p.screen == RenderView(s)
  {
    Page(s.view != Home && s.view != Camera, RenderView(s))
  }

  /** The browser's persistent record of the history list; `None` when absent. */
  class HistoryStore {
    var record: Option<seq<AnalysisHistoryItem>>

    constructor (initial: Option<seq<AnalysisHistoryItem>>)
      ensures record == initial
    {
      record := initial;
    }
  }

  /**
   * The application component. Its state hooks are the fields of `state`; a
   * handler reads the values its render captured and sets the next ones, so
   * each handler step is one update of `state` computed from its old value.
   */
  class Session {
    const store: HistoryStore
    var state: SessionState

    /** What the application renders now. */
    function CurrentPage(): (p: Page)
      reads this
      ensures p == RenderPage(state)
    {
      RenderPage(state)
    }

    /** Mounting: every field at its initial value; the store is only read later. */
    constructor (store: HistoryStore)
      ensures this.store == store && state == InitialState()
    {
      this.store := store;
      state := InitialState();
    }

    /** The mount effect: a stored record, when present, becomes the history. */
    method HydrateHistory()
      modifies this
      ensures state == old(state).(
        history := if store.record.Some? then store.record.value else old(state.history))
    {
      if store.record.Some? {
        state := state.(history := store.record.value);
      }
    }

    /** The updates `handleAnalyzeRequest` makes before awaiting the analysis. */
    method StartPlantAnalysis(imageData: string)
      modifies this
      ensures state == old(state).(
        image := Some(imageData), view := Analyzing, language := BaseLanguage,
        plant := PlantState(None, None, true, None, false))
    {
      state := state.(
        image := Some(imageData), view := Analyzing, language := BaseLanguage,
        plant := state.plant.(isAnalyzing := true, analysisError := None, analysisResult := None,
                              isViewingHistoryDetail := false, translatedAnalysisResult := None));
    }

    /**
     * The updates after the analysis settles. On success the result is shown
     * and a record (`id` and `date` stand for the clock's readings) is put at
     * the front of the history, which is written to the store unless the write
     * throws (`storageWritable` false); on failure the fixed message is shown.
     */
    method SettlePlantAnalysis(imageData: string, outcome: Outcome<AnalysisResult>,
                               id: string, date: string, storageWritable: bool)
      modifies this, store
      ensures outcome.Success? ==>
        state == old(state).(
          view := Result,
          plant := old(state.plant).(analysisResult := Some(outcome.value), isAnalyzing := false),
          history := [AnalysisHistoryItem(id, imageData, date, outcome.value)] + old(state.history))
      ensures outcome.Failure? ==>
        state == old(state).(
          view := Result,
          plant := old(state.plant).(analysisError := Some(PlantAnalysisError), isAnalyzing := false))
      ensures store.record == if outcome.Success? && storageWritable then Some(state.history) else old(store.record)
    {
      match outcome {
        case Success(result) =>
          var newHistoryItem := AnalysisHistoryItem(id, imageData, date, result);
          var updatedHistory := [newHistoryItem] + state.history;
          if storageWritable {
            store.record := Some(updatedHistory);
          }
          state := state.(view := Result, plant := state.plant.(analysisResult := Some(result)),
                          history := updatedHistory);
        case Failure =>
          state := state.(view := Result, plant := state.plant.(analysisError := Some(PlantAnalysisError)));
      }
      state := state.(plant := state.plant.(isAnalyzing := false));
    }

    /** `handleAnalyzeRequest`: submit a plant image and settle with `outcome`. */
    method AnalyzePlant(imageData: string, outcome: Outcome<AnalysisResult>,
                        id: string, date: string, storageWritable: bool)
      modifies this, store
      ensures outcome.Success? ==>
        && state == old(state).(image := Some(imageData), view := Result, language := BaseLanguage,
                                plant := PlantState(Some(outcome.value), None, false, None, false),
                                history := [AnalysisHistoryItem(id, imageData, date, outcome.value)] + old(state.history))
        && store.record == if storageWritable then Some(state.history) else old(store.record)
      ensures outcome.Failure? ==>
        && state == old(state).(image := Some(imageData), view := Result, language := BaseLanguage,
                                plant := PlantState(None, None, false, Some(PlantAnalysisError), false))
        && store.record == old(store.record)
    {
      StartPlantAnalysis(imageData);
      SettlePlantAnalysis(imageData, outcome, id, date, storageWritable);
    }

    /** The updates `handleAnalyzeSoilRequest` makes before awaiting the analysis. */
    method StartSoilAnalysis(imageData: string)
      modifies this
      ensures state == old(state).(
        image := Some(imageData), view := AnalyzingSoil, language := BaseLanguage,
        soil := SoilState(None, None, true, None))
    {
      state := state.(
        image := Some(imageData), view := AnalyzingSoil, language := BaseLanguage,
        soil := state.soil.(isAnalyzingSoil := true, soilAnalysisError := None, soilAnalysisResult := None,
                            translatedSoilAnalysisResult := None));
    }

    /** The updates after a soil analysis settles; history is never touched. */
    method SettleSoilAnalysis(outcome: Outcome<SoilAnalysisResult>)
      modifies this
      ensures state == old(state).(
        view := SoilResult,
        soil := old(state.soil).(
          soilAnalysisResult := if outcome.Success? then Some(outcome.value) else old(state.soil.soilAnalysisResult),
          soilAnalysisError := if outcome.Failure? then Some(SoilAnalysisError) else old(state.soil.soilAnalysisError),
          isAnalyzingSoil := false))
    {
      match outcome {
        case Success(result) =>
          state := state.(view := SoilResult, soil := state.soil.(soilAnalysisResult := Some(result)));
        case Failure =>
          state := state.(view := SoilResult, soil := state.soil.(soilAnalysisError := Some(SoilAnalysisError)));
      }
      state := state.(soil := state.soil.(isAnalyzingSoil := false));
    }

    /** `handleAnalyzeSoilRequest`: submit a soil image and settle with `outcome`. */
    method AnalyzeSoil(imageData: string, outcome: Outcome<SoilAnalysisResult>)
      modifies this
      ensures state == old(state).(
        image := Some(imageData), view := SoilResult, language := BaseLanguage,
        soil := SoilState(if outcome.Success? then Some(outcome.value) else None, None, false,
                          if outcome.Failure? then Some(SoilAnalysisError) else None))
      ensures state.history == old(state.history)
    {
      StartSoilAnalysis(imageData);
      SettleSoilAnalysis(outcome);
    }

    /** `handleNavigateToScan`: a fresh plant scan, forgetting the last image and result. */
    method NavigateToScan()
      modifies this
      ensures state == old(state).(
        scanMode := PlantMode, image := None, view := Scan,
        plant := old(state.plant).(analysisError := None, analysisResult := None, isViewingHistoryDetail := false))
    {
      state := state.(
        scanMode := PlantMode, image := None, view := Scan,
        plant := state.plant.(analysisError := None, analysisResult := None, isViewingHistoryDetail := false));
    }

    /** `handleNavigateToSoilScan`: a fresh soil scan. */
    method NavigateToSoilScan()
      modifies this
      ensures state == old(state).(
        scanMode := SoilMode, image := None, view := SoilScan,
        soil := old(state.soil).(soilAnalysisError := None, soilAnalysisResult := None))
    {
      state := state.(
        scanMode := SoilMode, image := None, view := SoilScan,
        soil := state.soil.(soilAnalysisError := None, soilAnalysisResult := None));
    }

    /** `handleNavigateToCamera`: both scan errors are dismissed. */
    method NavigateToCamera()
      modifies this
      ensures state == old(state).(
        view := Camera,
        plant := old(state.plant).(analysisError := None),
        soil := old(state.soil).(soilAnalysisError := None))
    {
      state := state.(
        view := Camera,
        plant := state.plant.(analysisError := None),
        soil := state.soil.(soilAnalysisError := None));
    }

    /** `handleBackToScan`: back to the scan screen of the current mode. */
    method BackToScan()
      modifies this
      ensures state == old(state).(view := if old(state.scanMode) == SoilMode then SoilScan else Scan)
    {
      if state.scanMode == SoilMode {
        state := state.(view := SoilScan);
      } else {
        state := state.(view := Scan);
      }
    }

    /** `handleBackToHome`. */
    method BackToHome()
      modifies this
      ensures state == old(state).(view := Home)
    {
      state := state.(view := Home);
    }

    /**
     * The updates `handleNavigateToCareTips` makes before its fetch; `fetching`
     * is false when tips are already cached, in which case nothing is fetched.
     */
    method StartCareTips() returns (fetching: bool)
      modifies this
      ensures fetching <==> old(state.tips.careTips).None?
      ensures state == old(state).(
        view := CareTips, language := BaseLanguage,
        tips := if fetching then old(state.tips).(translatedCareTips := None, isLoadingTips := true, tipsError := None)
                else old(state.tips).(translatedCareTips := None))
    {
      state := state.(view := CareTips, language := BaseLanguage, tips := state.tips.(translatedCareTips := None));
      if state.tips.careTips.Some? {
        return false;
      }
      state := state.(tips := state.tips.(isLoadingTips := true, tipsError := None));
      fetching := true;
    }

    /** The updates after the tips fetch settles. */
    method SettleCareTips(outcome: Outcome<seq<CareTip>>)
      modifies this
      ensures state == old(state).(
        tips := old(state.tips).(
          careTips := if outcome.Success? then Some(outcome.value) else old(state.tips.careTips),
          tipsError := if outcome.Failure? then Some(TipsFetchError) else old(state.tips.tipsError),
          isLoadingTips := false))
    {
      match outcome {
        case Success(fetchedTips) =>
          state := state.(tips := state.tips.(careTips := Some(fetchedTips)));
        case Failure =>
          state := state.(tips := state.tips.(tipsError := Some(TipsFetchError)));
      }
      state := state.(tips := state.tips.(isLoadingTips := false));
    }

    /**
     * `handleNavigateToCareTips`: open the tips screen, fetching (and consuming
     * `outcome`) only when no tips are cached.
     */
    method OpenCareTips(outcome: Outcome<seq<CareTip>>) returns (fetched: bool)
      modifies this
      ensures fetched <==> old(state.tips.careTips).None?
      ensures state == old(state).(
        view := CareTips, language := BaseLanguage,
        tips := if !fetched then old(state.tips).(translatedCareTips := None)
                else TipsState(if outcome.Success? then Some(outcome.value) else None, None, false,
                               if outcome.Failure? then Some(TipsFetchError) else None))
    {
      fetched := StartCareTips();
      if fetched {
        SettleCareTips(outcome);
      }
    }

    /**
     * The updates `handleLanguageChange` makes before awaiting a translation.
     * The base language clears every translation and starts nothing
     * (`target` is `None`); any other language marks a translation in flight
     * and, when the screen shows a result, clears the two other translations
     * and names that result's workflow as `target`.
     */
    method StartLanguageChange(newLanguage: string) returns (target: Option<Workflow>)
      modifies this
      ensures newLanguage == BaseLanguage ==>
        && target.None?
        && state == WithTranslations(old(state).(language := newLanguage), Translations(None, None, None))
      ensures newLanguage != BaseLanguage ==>
        && target == TranslationTarget(old(state))
        && state == TranslationBegun(old(state).(language := newLanguage), target)
    {
      var captured := state;
      state := state.(language := newLanguage);
      if newLanguage == BaseLanguage {
        state := state.(plant := state.plant.(translatedAnalysisResult := None),
                        tips := state.tips.(translatedCareTips := None),
                        soil := state.soil.(translatedSoilAnalysisResult := None));
        return None;
      }
      state := state.(isTranslating := true);
      if (captured.view == Result || captured.view == Analyzing) && captured.plant.analysisResult.Some? {
        state := state.(tips := state.tips.(translatedCareTips := None),
                        soil := state.soil.(translatedSoilAnalysisResult := None));
        target := Some(PlantWorkflow);
      } else if captured.view == CareTips && captured.tips.careTips.Some? {
        state := state.(plant := state.plant.(translatedAnalysisResult := None),
                        soil := state.soil.(translatedSoilAnalysisResult := None));
        target := Some(TipsWorkflow);
      } else if (captured.view == SoilResult || captured.view == AnalyzingSoil)
             && captured.soil.soilAnalysisResult.Some? {
        state := state.(plant := state.plant.(translatedAnalysisResult := None),
                        tips := state.tips.(translatedCareTips := None));
        target := Some(SoilWorkflow);
      } else {
        target := None;
      }
    }

    /**
     * The updates after the translation call of `target`'s workflow settles.
     * `plant`, `tips` and `soil` are what each of the three calls would settle
     * with; only the one for `target` is consulted.
     */
    method SettleTranslation(target: Option<Workflow>, plant: Outcome<AnalysisResult>,
                             tips: Outcome<seq<CareTip>>, soil: Outcome<SoilAnalysisResult>)
      modifies this
      ensures state == TranslationSettled(old(state), target, plant, tips, soil)
    {
      if target == Some(PlantWorkflow) && plant.Success? {
        state := state.(plant := state.plant.(translatedAnalysisResult := Some(plant.value)));
      } else if target == Some(TipsWorkflow) && tips.Success? {
        state := state.(tips := state.tips.(translatedCareTips := Some(tips.value)));
      } else if target == Some(SoilWorkflow) && soil.Success? {
        state := state.(soil := state.soil.(translatedSoilAnalysisResult := Some(soil.value)));
      }
      state := state.(isTranslating := false);
    }

    /**
     * `handleLanguageChange`: switch to `newLanguage`. `target` is the workflow
     * whose translation call was made, if any.
     */
    method ChangeLanguage(newLanguage: string, plant: Outcome<AnalysisResult>,
                          tips: Outcome<seq<CareTip>>, soil: Outcome<SoilAnalysisResult>)
      returns (target: Option<Workflow>)
      modifies this
      ensures newLanguage == BaseLanguage ==>
        && target.None?
        && state == WithTranslations(old(state).(language := newLanguage), Translations(None, None, None))
      ensures newLanguage != BaseLanguage ==>
        && target == TranslationTarget(old(state))
        && state == TranslationSettled(TranslationBegun(old(state).(language := newLanguage), target),
                                       target, plant, tips, soil)
    {
      target := StartLanguageChange(newLanguage);
      if newLanguage != BaseLanguage {
        SettleTranslation(target, plant, tips, soil);
      }
    }

    /** `handleNavigateToHistory`. */
    method NavigateToHistory()
      modifies this
      ensures state == old(state).(view := History)
    {
      state := state.(view := History);
    }

    /**
     * `handleViewHistoryItem` as written: show a stored analysis in the result
     * screen, marked as coming from history, in the base language. It leaves
     * `analysisError` as it was.
     */
    method ViewHistoryItem(item: AnalysisHistoryItem)
      modifies this
      ensures state == old(state).(
        image := Some(item.image), language := BaseLanguage, view := Result,
        plant := old(state.plant).(analysisResult := Some(item.analysis), isViewingHistoryDetail := true,
                                   translatedAnalysisResult := None))
    {
      state := state.(
        image := Some(item.image), language := BaseLanguage, view := Result,
        plant := state.plant.(analysisResult := Some(item.analysis), isViewingHistoryDetail := true,
                              translatedAnalysisResult := None));
    }

    /**
     * `handleViewHistoryItem` as evidently intended: the same updates, and
     * the error of an earlier failed scan dismissed, so that the stored
     * analysis is what the result screen shows.
     */
    method ViewHistoryItemClearingError(item: AnalysisHistoryItem)
      modifies this
      ensures state == old(state).(
        image := Some(item.image), language := BaseLanguage, view := Result,
        plant := old(state.plant).(analysisResult := Some(item.analysis), isViewingHistoryDetail := true,
                                   translatedAnalysisResult := None, analysisError := None))
      ensures CurrentPage().screen == PlantResultScreen(AnalysisScreen.Render(
        state.plant.isAnalyzing, Some(item.analysis), Some(item.image), Handler.NavigateToHistory,
        "Back to History", None, BaseLanguage, state.isTranslating))
    {
      ViewHistoryItem(item);
      state := state.(plant := state.plant.(analysisError := None));
    }

    /**
     * `handleClearHistory`: only when the user confirms, the history is
     * emptied and the stored record removed (unless the removal throws,
     * `storageRemovable` false).
     */
    method ClearHistory(confirmed: bool, storageRemovable: bool)
      modifies this, store
      ensures state == old(state).(history := if confirmed then [] else old(state.history))
      ensures store.record == if confirmed && storageRemovable then None else old(store.record)
    {
      if confirmed {
        state := state.(history := []);
        if storageRemovable {
          store.record := None;
        }
      }
    }
  }
}
