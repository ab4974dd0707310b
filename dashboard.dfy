/** The analysis page (client/src/pages/dashboard.tsx): the loaded feedback,
    its file name, and the results of the last analysis, with the rules that
    reset them on new data and the guard in front of the submit. */
module Dashboard {
  import opened Wrappers
  import opened Text
  import opened Schema

  /** A notification: its title and description. */
  datatype Toast = Toast(title: string, description: string)

  /** What pressing "Analyze Feedback" does: refuse with a notification, or
      send the entries to the analysis endpoint. */
  datatype AnalyzeOutcome = Rejected(toast: Toast) | Submitted(feedbackEntries: seq<string>)

  /** The fewest entries the page sends for analysis. */
  const MinimumEntries := 3

  /** The guard of `handleAnalyze`. */
  function AnalyzeDecision(feedbackData: seq<string>): (r: AnalyzeOutcome)
    ensures r.Submitted? <==> |feedbackData| >= MinimumEntries
    ensures r.Submitted? ==> r.feedbackEntries == feedbackData
    ensures r.Rejected? && feedbackData == [] ==>
      r.toast == Toast("No data to analyze", "Please upload a CSV file or enter feedback manually.")
    ensures r.Rejected? && feedbackData != [] ==>
      r.toast == Toast("Insufficient data", "Please provide at least 3 feedback entries for meaningful analysis.")
  {
    if |feedbackData| == 0 then
      Rejected(Toast("No data to analyze", "Please upload a CSV file or enter feedback manually."))
    else if |feedbackData| < MinimumEntries then
      Rejected(Toast("Insufficient data", "Please provide at least 3 feedback entries for meaningful analysis."))
    else
      Submitted(feedbackData)
  }

  /** The button is disabled while a request is pending or there is no data. */
  predicate AnalyzeDisabled(isPending: bool, feedbackData: seq<string>) {
    isPending || |feedbackData| == 0
  }

  /** A press on the enabled button never reports "No data to analyze": it
      either submits or reports insufficient data. */
  lemma EnabledButtonNeverReportsNoData(isPending: bool, feedbackData: seq<string>)
    requires !AnalyzeDisabled(isPending, feedbackData)
    ensures AnalyzeDecision(feedbackData).Submitted? || AnalyzeDecision(feedbackData).toast.title == "Insufficient data"
  {
  }

  /** The body the analysis endpoint answers with. */
  datatype AnalysisResponse = AnalysisResponse(analysisId: Id, results: AnalysisResults)

  /** The preview card's inputs. */
  datatype Preview = Preview(data: seq<string>, filename: string)

  /** The page state; `analysisId` is `None` where the page holds "". */
  class DashboardState {
    var feedbackData: seq<string>
    var filename: string
    var analysisResults: Option<AnalysisResults>
    var analysisId: Option<Id>

    constructor ()
      ensures feedbackData == [] && filename == ""
      ensures analysisResults == None && analysisId == None
    {
      feedbackData := [];
      filename := "";
      analysisResults := None;
      analysisId := None;
    }

    /** `handleFileProcessed`: new data from an uploaded file drops the old results. */
    method HandleFileProcessed(data: seq<string>, uploadedFilename: string)
      modifies this
      ensures feedbackData == data && filename == uploadedFilename
      ensures analysisResults == None && analysisId == None
    {
      feedbackData := data;
      filename := uploadedFilename;
      analysisResults := None;
      analysisId := None;
    }

    /** `handleManualDataChange`: new pasted data has no file name and drops
        the old results. */
    method HandleManualDataChange(entries: seq<string>)
      modifies this
      ensures feedbackData == entries && filename == ""
      ensures analysisResults == None && analysisId == None
    {
      feedbackData := entries;
      filename := "";
      analysisResults := None;
      analysisId := None;
    }

    /** `handleAnalyze`: the guard applied to the current data; the state is
        left as it is. */
    method HandleAnalyze() returns (r: AnalyzeOutcome)
      ensures r.Submitted? <==> |feedbackData| >= MinimumEntries
      ensures r.Submitted? ==> r.feedbackEntries == feedbackData
      ensures r == AnalyzeDecision(feedbackData)
    {
      if |feedbackData| == 0 {
        r := Rejected(Toast("No data to analyze", "Please upload a CSV file or enter feedback manually."));
        return;
      }
      if |feedbackData| < MinimumEntries {
        r := Rejected(Toast("Insufficient data", "Please provide at least 3 feedback entries for meaningful analysis."));
        return;
      }
      r := Submitted(feedbackData);
    }

    /** The mutation's `onSuccess`: the response's results and id are shown;
        the data and file name stay. */
    method OnSuccess(response: AnalysisResponse) returns (toast: Toast)
      modifies this
      ensures analysisResults == Some(response.results) && analysisId == Some(response.analysisId)
      ensures feedbackData == old(feedbackData) && filename == old(filename)
      ensures toast.title == "Analysis completed"
      ensures toast.description == "Identified " + DecimalString(response.results.themesFound)
        + " key themes from " + DecimalString(response.results.totalFeedback) + " feedback entries."
    {
      analysisResults := Some(response.results);
      analysisId := Some(response.analysisId);
      toast := Toast("Analysis completed", "Identified " + DecimalString(response.results.themesFound)
        + " key themes from " + DecimalString(response.results.totalFeedback) + " feedback entries.");
    }

    /** The mutation's `onError`: the error's message, or a stock one when
        the thrown value carries none; the state is left as it is. */
    method OnError(message: Option<string>) returns (toast: Toast)
      ensures toast.title == "Analysis failed"
      ensures message.Some? ==> toast.description == message.value
      ensures message.None? ==> toast.description == "Failed to analyze feedback"
    {
      match message
      case Some(m) => toast := Toast("Analysis failed", m);
      case None => toast := Toast("Analysis failed", "Failed to analyze feedback");
    }

    /** The preview card, shown exactly when there is data. */
    function PreviewCard(): (r: Option<Preview>)
      reads this
      ensures r.Some? <==> feedbackData != []
      ensures r.Some? ==> r.value == Preview(feedbackData, filename)
    {
      if |feedbackData| > 0 then Some(Preview(feedbackData, filename)) else None
    }
  }

  /** Loading new data after an analysis leaves nothing of that analysis on
      the page, and pressing the button then submits exactly the new data
      when there are enough entries. */
  method NewDataAfterAnalysis(response: AnalysisResponse, entries: seq<string>) returns (outcome: AnalyzeOutcome)
    ensures |entries| >= MinimumEntries ==> outcome == Submitted(entries)
    ensures |entries| < MinimumEntries ==> outcome.Rejected?
  {
    var page := new DashboardState();
    var _ := page.OnSuccess(response);
    page.HandleManualDataChange(entries);
    assert page.analysisResults == None && page.analysisId == None;
    outcome := page.HandleAnalyze();
  }
}
