/**
 * Whole sessions, each on a fresh store and session: sequences of handler
 * calls as a user would trigger them, and what the page or the store shows
 * at the end. The service answers, the clock readings and the confirm answer
 * are parameters, so each scenario holds for all of them.
 */
module Scenarios {
  import opened Types
  import opened Languages
  import opened ScreenParts
  import opened App
  import AnalysisScreen

  /** The page of a plant result view whose analysis failed. */
  lemma FailedResultPage(st: SessionState)
    requires st.view == Result && st.isTranslating == false
    requires st.plant == PlantState(None, None, false, Some(PlantAnalysisError), false)
    ensures RenderPage(st) == Page(true, PlantResultScreen(
      AnalysisScreen.Failed(PlantAnalysisError, Button("Try Again", Handler.NavigateToScan))))
  {
  }

  /** The page of a settled plant result view reached from a scan. */
  lemma ScannedResultPage(st: SessionState)
    requires st.view == Result && !st.isTranslating
    requires !st.plant.isAnalyzing && st.plant.analysisError == None && !st.plant.isViewingHistoryDetail
    ensures RenderPage(st).screen == PlantResultScreen(AnalysisScreen.Render(
      false, Preferred(st.plant.translatedAnalysisResult, st.plant.analysisResult), st.image,
      Handler.NavigateToScan, "Scan Another Plant", None, st.language, false))
  {
  }

  /** A failed plant scan lands on the result screen with the failure panel; nothing is recorded. */
  method FailedScanShowsError(imageData: string)
    returns (page: Page, history: seq<AnalysisHistoryItem>, stored: Option<seq<AnalysisHistoryItem>>)
    ensures page == Page(true, PlantResultScreen(
      AnalysisScreen.Failed(PlantAnalysisError, Button("Try Again", Handler.NavigateToScan))))
    ensures history == [] && stored == None
  {
    var store := new HistoryStore(None);
    var s := new Session(store);
    s.HydrateHistory();
    s.NavigateToScan();
    assert s.state.plant == PlantState(None, None, false, None, false) && s.state.history == [];
    s.AnalyzePlant(imageData, Failure, "1", "now", true);
    assert s.state.view == Result && s.state.history == [] && store.record == None;
    assert s.state.plant == PlantState(None, None, false, Some(PlantAnalysisError), false);
    FailedResultPage(s.state);
    page, history, stored := s.CurrentPage(), s.state.history, store.record;
  }

  /** While the analysis is in flight, the result screen shows the loading indicator. */
  method LoadingWhileAnalyzing(imageData: string) returns (page: Page)
    ensures page == Page(true, PlantResultScreen(AnalysisScreen.Loading))
  {
    var store := new HistoryStore(None);
    var s := new Session(store);
    s.NavigateToScan();
    s.StartPlantAnalysis(imageData);
    page := s.CurrentPage();
  }

  /** A retry after a failure shows the second scan's report, with the error gone. */
  method RetryAfterFailure(first: string, second: string, result: AnalysisResult, id: string, date: string)
    returns (page: Page)
    ensures page.screen == PlantResultScreen(AnalysisScreen.Render(
      false, Some(result), Some(second), Handler.NavigateToScan, "Scan Another Plant", None, BaseLanguage, false))
  {
    var store := new HistoryStore(None);
    var s := new Session(store);
    s.HydrateHistory();
    assert !s.state.isTranslating;
    s.AnalyzePlant(first, Failure, "0", "then", true);
    assert s.state.plant == PlantState(None, None, false, Some(PlantAnalysisError), false) && !s.state.isTranslating;
    s.NavigateToScan();
    assert s.state.plant == PlantState(None, None, false, None, false);
    s.AnalyzePlant(second, Success(result), id, date, true);
    assert s.state.view == Result && s.state.image == Some(second) && s.state.language == BaseLanguage;
    assert s.state.plant == PlantState(Some(result), None, false, None, false) && !s.state.isTranslating;
    ScannedResultPage(s.state);
    page := s.CurrentPage();
  }

  /** After a failure and a retry, the history and the store hold exactly the one record of the retry. */
  method RetryRecordsOnlySecond(first: string, second: string, result: AnalysisResult, id: string, date: string)
    returns (history: seq<AnalysisHistoryItem>, stored: Option<seq<AnalysisHistoryItem>>)
    ensures history == [AnalysisHistoryItem(id, second, date, result)]
    ensures stored == Some(history)
  {
    var store := new HistoryStore(None);
    var s := new Session(store);
    s.HydrateHistory();
    s.AnalyzePlant(first, Failure, "0", "then", true);
    s.NavigateToScan();
    s.AnalyzePlant(second, Success(result), id, date, true);
    history, stored := s.state.history, store.record;
  }

  /** Starting the app again over `store`: a new session mounts and reads the stored record. */
  method Restart(store: HistoryStore) returns (restored: seq<AnalysisHistoryItem>)
    ensures restored == if store.record.Some? then store.record.value else []
  {
    var t := new Session(store);
    t.HydrateHistory();
    restored := t.state.history;
  }

  /** A recorded analysis is read back by the next session over the same store. */
  method HistorySurvivesRestart(imageData: string, result: AnalysisResult, id: string, date: string)
    returns (restored: seq<AnalysisHistoryItem>)
    ensures restored == [AnalysisHistoryItem(id, imageData, date, result)]
  {
    var store := new HistoryStore(None);
    var s := new Session(store);
    s.HydrateHistory();
    s.AnalyzePlant(imageData, Success(result), id, date, true);
    restored := Restart(store);
  }

  /** When the store refuses the write, the record lives only as long as the session. */
  method UnsavedHistoryLostOnRestart(imageData: string, result: AnalysisResult, id: string, date: string)
    returns (during: seq<AnalysisHistoryItem>, restored: seq<AnalysisHistoryItem>)
    ensures during == [AnalysisHistoryItem(id, imageData, date, result)]
    ensures restored == []
  {
    var store := new HistoryStore(None);
    var s := new Session(store);
    s.HydrateHistory();
    ghost var before := s.state;
    s.AnalyzePlant(imageData, Success(result), id, date, false);
    assert s.state.history == [AnalysisHistoryItem(id, imageData, date, result)] + before.history;
    during := s.state.history;
    restored := Restart(store);
  }

  /** Confirmed clearing empties the list and the store, so a restart finds nothing. */
  method ClearedHistoryStaysCleared(items: seq<AnalysisHistoryItem>)
    returns (shown: Page, restored: seq<AnalysisHistoryItem>)
    ensures shown == Page(true, HistoryScreen([]))
    ensures restored == []
  {
    var store := new HistoryStore(Some(items));
    var s := new Session(store);
    s.HydrateHistory();
    s.NavigateToHistory();
    s.ClearHistory(true, true);
    shown := s.CurrentPage();
    restored := Restart(store);
  }

  /** Declining the confirmation leaves the list and the store as they were. */
  method DeclinedClearKeepsHistory(items: seq<AnalysisHistoryItem>)
    returns (shown: Page, stored: Option<seq<AnalysisHistoryItem>>)
    ensures shown == Page(true, HistoryScreen(items))
    ensures stored == Some(items)
  {
    var store := new HistoryStore(Some(items));
    var s := new Session(store);
    s.HydrateHistory();
    s.NavigateToHistory();
    s.ClearHistory(false, true);
    shown, stored := s.CurrentPage(), store.record;
  }

  /** Tips that were fetched once are not fetched again, and stay on screen. */
  method CareTipsFetchedOnce(tips: seq<CareTip>, later: Outcome<seq<CareTip>>)
    returns (firstFetched: bool, secondFetched: bool, page: Page)
    ensures firstFetched && !secondFetched
    ensures page == Page(true, CareTipsScreen(Some(tips), false, None, BaseLanguage, false))
  {
    var store := new HistoryStore(None);
    var s := new Session(store);
    firstFetched := s.OpenCareTips(Success(tips));
    s.BackToHome();
    secondFetched := s.OpenCareTips(later);
    page := s.CurrentPage();
  }

  /** A failed fetch caches nothing, so the next visit fetches again and can succeed. */
  method CareTipsRefetchedAfterFailure(tips: seq<CareTip>)
    returns (failedPage: Page, secondFetched: bool, page: Page)
    ensures failedPage == Page(true, CareTipsScreen(None, false, Some(TipsFetchError), BaseLanguage, false))
    ensures secondFetched
    ensures page == Page(true, CareTipsScreen(Some(tips), false, None, BaseLanguage, false))
  {
    var store := new HistoryStore(None);
    var s := new Session(store);
    var _ := s.OpenCareTips(Failure);
    failedPage := s.CurrentPage();
    s.BackToHome();
    secondFetched := s.OpenCareTips(Success(tips));
    page := s.CurrentPage();
  }

  /**
   * Translating a report shows the translation; a failed translation to a
   * third language keeps the earlier one; switching back to the base
   * language shows the original again.
   */
  method TranslateAndRevert(imageData: string, result: AnalysisResult, spanish: AnalysisResult,
                            id: string, date: string, tips: Outcome<seq<CareTip>>, soil: Outcome<SoilAnalysisResult>)
    returns (translated: Page, afterFailure: Page, reverted: Page)
    ensures translated.screen == PlantResultScreen(AnalysisScreen.Render(
      false, Some(spanish), Some(imageData), Handler.NavigateToScan, "Scan Another Plant", None, "Spanish", false))
    ensures afterFailure.screen == PlantResultScreen(AnalysisScreen.Render(
      false, Some(spanish), Some(imageData), Handler.NavigateToScan, "Scan Another Plant", None, "French", false))
    ensures reverted.screen == PlantResultScreen(AnalysisScreen.Render(
      false, Some(result), Some(imageData), Handler.NavigateToScan, "Scan Another Plant", None, BaseLanguage, false))
  {
    var store := new HistoryStore(None);
    var s := new Session(store);
    s.AnalyzePlant(imageData, Success(result), id, date, true);
    assert s.state.view == Result && s.state.image == Some(imageData) && !s.state.isTranslating;
    assert s.state.plant == PlantState(Some(result), None, false, None, false);
    var _ := s.ChangeLanguage("Spanish", Success(spanish), tips, soil);
    assert s.state.view == Result && s.state.image == Some(imageData) && !s.state.isTranslating;
    assert s.state.plant == PlantState(Some(result), Some(spanish), false, None, false);
    ScannedResultPage(s.state);
    translated := s.CurrentPage();
    var _ := s.ChangeLanguage("French", Failure, tips, soil);
    assert s.state.view == Result && s.state.image == Some(imageData) && !s.state.isTranslating;
    assert s.state.plant == PlantState(Some(result), Some(spanish), false, None, false);
    ScannedResultPage(s.state);
    afterFailure := s.CurrentPage();
    var _ := s.ChangeLanguage(BaseLanguage, Failure, tips, soil);
    assert s.state.view == Result && s.state.image == Some(imageData) && !s.state.isTranslating;
    assert s.state.plant == PlantState(Some(result), None, false, None, false);
    ScannedResultPage(s.state);
    reverted := s.CurrentPage();
  }

  /** A report opened from the history offers the way back to the history. */
  method HistoryDetailReturnsToHistory(item: AnalysisHistoryItem) returns (page: Page)
    ensures page.screen == PlantResultScreen(AnalysisScreen.Render(
      false, Some(item.analysis), Some(item.image), Handler.NavigateToHistory, "Back to History",
      None, BaseLanguage, false))
  {
    var store := new HistoryStore(Some([item]));
    var s := new Session(store);
    s.HydrateHistory();
    s.NavigateToHistory();
    s.ViewHistoryItem(item);
    page := s.CurrentPage();
  }

  /**
   * An analysis that settles after the user has gone back to the home screen
   * still switches the view to the result screen.
   */
  method LateResultReturnsToResultScreen(imageData: string, result: AnalysisResult, id: string, date: string)
    returns (beforeSettle: Page, afterSettle: Page)
    ensures beforeSettle == Page(false, HomeScreen)
    ensures afterSettle.screen == PlantResultScreen(AnalysisScreen.Render(
      false, Some(result), Some(imageData), Handler.NavigateToScan, "Scan Another Plant", None, BaseLanguage, false))
  {
    var store := new HistoryStore(None);
    var s := new Session(store);
    s.StartPlantAnalysis(imageData);
    s.BackToHome();
    beforeSettle := s.CurrentPage();
    s.SettlePlantAnalysis(imageData, Success(result), id, date, true);
    afterSettle := s.CurrentPage();
  }

  /**
   * `handleViewHistoryItem` as written: after a scan fails, going home and
   * opening a record from the history shows the old failure panel instead of
   * the record.
   */
  method StaleErrorHidesHistoryItem(item: AnalysisHistoryItem, imageData: string) returns (page: Page)
    ensures page.screen == PlantResultScreen(
      AnalysisScreen.Failed(PlantAnalysisError, Button("Try Again", Handler.NavigateToHistory)))
  {
    var store := new HistoryStore(Some([item]));
    var s := new Session(store);
    s.HydrateHistory();
    s.AnalyzePlant(imageData, Failure, "1", "now", true);
    s.BackToHome();
    s.NavigateToHistory();
    assert s.state.plant.analysisError == Some(PlantAnalysisError) && !s.state.plant.isAnalyzing;
    s.ViewHistoryItem(item);
    assert s.state.view == Result && s.state.plant.analysisError == Some(PlantAnalysisError) && !s.state.plant.isAnalyzing;
    assert s.state.plant.isViewingHistoryDetail;
    page := s.CurrentPage();
  }

  /** The same steps with the error dismissed: the record's report is shown. */
  method HistoryItemShownAfterFailedScan(item: AnalysisHistoryItem, imageData: string) returns (page: Page)
    ensures page.screen == PlantResultScreen(AnalysisScreen.Render(
      false, Some(item.analysis), Some(item.image), Handler.NavigateToHistory, "Back to History",
      None, BaseLanguage, false))
    ensures page.screen.plant.Report?
  {
    var store := new HistoryStore(Some([item]));
    var s := new Session(store);
    s.HydrateHistory();
    s.AnalyzePlant(imageData, Failure, "1", "now", true);
    s.BackToHome();
    s.NavigateToHistory();
    s.ViewHistoryItemClearingError(item);
    page := s.CurrentPage();
  }
}
