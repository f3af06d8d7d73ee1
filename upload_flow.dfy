/**
 * The upload-and-predict flow of static/js/main.js: one selected-file slot,
 * the visibility of the upload prompt, the preview, the results section and
 * its loading and content panes, and what is rendered into them.
 *
 * `Page` is the page state as a value, and the functions over it specify each
 * transition; `UploadPage` holds the same state in fields and its methods
 * perform the transitions step by step. Dialogs (alert) become returned
 * notices, the fetch becomes a returned request whose outcome is delivered
 * later through ReceiveOutcome, and the FileReader's completion is delivered
 * through CompletePreviewRead.
 */
module UploadFlow {
  import opened Wrappers
  import opened UploadRules
  import JsStrings

  /** The content of the loading pane: the page's spinner, or the failure box written over it. */
  datatype LoadingPane = Spinner | FailurePane(heading: string, message: string, retryLabel: string)

  const FailedHeading: string := "Analysis Failed"
  const RetryLabel: string := "Try Again"
  const NoSelectionNotice: string := "Please select an image first."

  /** The POST that analyzeImage issues: its path and the one multipart field. */
  datatype Request = Request(path: string, field: string, file: FileInfo)

  datatype Page = Page(
    selectedFile: Option<FileInfo>,
    pickerFiles: seq<FileInfo>,      // the files the file input holds
    pendingRead: Option<FileInfo>,   // a preview read started and not yet delivered
    previewSource: string,           // the data URL shown in the preview image
    uploadContentShown: bool,
    previewShown: bool,
    resultsSectionShown: bool,
    loadingShown: bool,
    resultsContentShown: bool,
    loadingPane: LoadingPane,
    predictionText: string,
    tone: Option<Tone>,              // None until a prediction has been styled
    confidenceText: string,
    breakdown: seq<Line>)

  /** The upload prompt and the preview are always toggled together, one shown and one hidden. */
  predicate Consistent(p: Page)
  {
    p.previewShown != p.uploadContentShown
  }

  /** The page as loaded: prompt shown, preview and results hidden, spinner in the loading pane. */
  function Initial(): Page
  {
    Page(None, [], None, "", true, false, false, false, false, Spinner, "", None, "", [])
  }

  function NoticeFor(file: FileInfo): Option<string>
  {
    match Validate(file)
    case Accepted => None
    case Rejected(notice) => Some(notice)
  }

  /** processFile: a rejected file changes nothing; an accepted one replaces the selection and starts the preview read. */
  function Selected(p: Page, file: FileInfo): Page
  {
    if Validate(file).Rejected? then p
    else p.(selectedFile := Some(file), pendingRead := Some(file))
  }

  /** The change handler of the file input: the input now holds `files`; the first one, if any, is processed. */
  function PickedFromInput(p: Page, files: seq<FileInfo>): Page
  {
    var q := p.(pickerFiles := files);
    if |files| > 0 then Selected(q, files[0]) else q
  }

  /** The drop handler: the first dropped file, if any, is processed; the file input is untouched. */
  function Dropped(p: Page, files: seq<FileInfo>): Page
  {
    if |files| > 0 then Selected(p, files[0]) else p
  }

  /** The reader's onload: show the data URL, hide the prompt, show the preview. */
  function PreviewLoaded(p: Page, dataUrl: string): Page
  {
    p.(pendingRead := None, previewSource := dataUrl, uploadContentShown := false, previewShown := true)
  }

  /** removeImage (and resetAnalysis, which calls it). */
  function Removed(p: Page): Page
  {
    p.(selectedFile := None, pickerFiles := [], uploadContentShown := true,
       previewShown := false, resultsSectionShown := false)
  }

  /**
   * analyzeImage as written: with a selection, the results section and the
   * loading pane are shown and the content hidden; whatever the loading
   * pane last held stays in it.
   */
  function AnalyzedAsWritten(p: Page): Page
  {
    if p.selectedFile.None? then p
    else p.(resultsSectionShown := true, loadingShown := true, resultsContentShown := false)
  }

  /** analyzeImage as intended: the same, and the loading pane holds the spinner again. */
  function Analyzed(p: Page): Page
  {
    if p.selectedFile.None? then p
    else p.(resultsSectionShown := true, loadingShown := true, resultsContentShown := false,
            loadingPane := Spinner)
  }

  function RequestFor(p: Page, detectorType: string): Option<Request>
  {
    if p.selectedFile.None? then None
    else Some(Request("/predict/" + detectorType, "file", p.selectedFile.value))
  }

  /** displayResults: hide the loading pane, show the content, fill it from the prediction. */
  function Shown(p: Page, prediction: Prediction): Page
  {
    var v := Render(prediction);
    p.(loadingShown := false, resultsContentShown := true, predictionText := v.predictionText,
       tone := Some(v.tone), confidenceText := v.confidenceText, breakdown := v.breakdown)
  }

  /** What the awaited response does: render the prediction, or write the failure box into the loading pane. */
  function Concluded(p: Page, o: Outcome): Page
  {
    match Read(o)
    case Display(prediction) => Shown(p, prediction)
    case Fail(message) => p.(loadingPane := FailurePane(FailedHeading, message, RetryLabel))
  }

  // ----- Properties of the transitions -----

  /** A rejected file leaves every slot and flag as it was and yields the notice. */
  lemma RejectedFileChangesNothing(p: Page, file: FileInfo)
    requires Validate(file).Rejected?
    ensures Selected(p, file) == p
    ensures NoticeFor(file) == Some(Validate(file).notice)
  {
  }

  /**
   * An accepted file replaces the selection at once, but the visibility flags
   * only change when the read completes: then the preview is shown and the
   * prompt hidden.
   */
  lemma AcceptedFileShownAfterRead(p: Page, file: FileInfo, dataUrl: string)
    requires Validate(file) == Accepted
    ensures Selected(p, file).selectedFile == Some(file)
    ensures Selected(p, file).(selectedFile := p.selectedFile, pendingRead := p.pendingRead) == p
    ensures var q := PreviewLoaded(Selected(p, file), dataUrl);
            q.previewShown && !q.uploadContentShown && q.previewSource == dataUrl && q.selectedFile == Some(file)
  {
  }

  /** After removal the page is idle; removing twice is the same as removing once. */
  lemma RemoveIsIdempotent(p: Page)
    ensures Removed(p).selectedFile.None? && Removed(p).pickerFiles == []
    ensures Removed(p).uploadContentShown && !Removed(p).previewShown && !Removed(p).resultsSectionShown
    ensures Removed(Removed(p)) == Removed(p)
  {
  }

  /** Without a selection, Analyze sends nothing and changes nothing. */
  lemma AnalyzeNeedsSelection(p: Page, detectorType: string)
    requires p.selectedFile.None?
    ensures AnalyzedAsWritten(p) == p && RequestFor(p, detectorType) == None
  {
  }

  /**
   * With a selection, the loading state is shown before any response, and
   * exactly that file is posted; the loading pane keeps whatever it held.
   */
  lemma AnalyzeShowsLoading(p: Page, detectorType: string)
    requires p.selectedFile.Some?
    ensures var q := AnalyzedAsWritten(p);
            q.resultsSectionShown && q.loadingShown && !q.resultsContentShown && q.loadingPane == p.loadingPane
    ensures AnalyzedAsWritten(p) == p.(resultsSectionShown := true, loadingShown := true, resultsContentShown := false)
    ensures RequestFor(p, detectorType) == Some(Request("/predict/" + detectorType, "file", p.selectedFile.value))
  {
  }

  /** Every transition keeps the prompt and the preview mutually exclusive. */
  lemma TransitionsKeepConsistent(p: Page, file: FileInfo, files: seq<FileInfo>, dataUrl: string, o: Outcome)
    requires Consistent(p)
    ensures Consistent(Initial())
    ensures Consistent(Selected(p, file)) && Consistent(PickedFromInput(p, files)) && Consistent(Dropped(p, files))
    ensures Consistent(PreviewLoaded(p, dataUrl)) && Consistent(Removed(p))
    ensures Consistent(AnalyzedAsWritten(p)) && Consistent(Analyzed(p)) && Consistent(Concluded(p, o))
  {
  }

  /** The failure outcome only rewrites the loading pane: the visibility flags are untouched. */
  lemma FailureKeepsFlags(p: Page, o: Outcome)
    requires Read(o).Fail?
    ensures Concluded(p, o) == p.(loadingPane := FailurePane("Analysis Failed", Read(o).message, "Try Again"))
  {
  }

  /** The server answers {success: true, prediction: "Malignant", ...} with two classes. */
  lemma MalignantScenario(p: Page)
    ensures var body := Json(true, "Malignant", "87.5", [("Malignant", "87.5"), ("Benign", "12.5")], None);
            var q := Concluded(AnalyzedAsWritten(p), Response(true, body));
            p.selectedFile.Some? ==>
              q.resultsSectionShown && !q.loadingShown && q.resultsContentShown
              && q.predictionText == "Malignant" && q.tone == Some(Warning) && q.confidenceText == "87.5%"
              && q.breakdown == [Heading("Detailed Results"), Row("Malignant", "87.5%"), Row("Benign", "12.5%")]
  {
    assert JsStrings.Includes(JsStrings.Lower("Malignant"), "malignant");
    var rows := BreakdownRows([("Malignant", "87.5"), ("Benign", "12.5")]);
    assert |rows| == 2 && rows[0] == Row("Malignant", "87.5%") && rows[1] == Row("Benign", "12.5%");
  }

  /** The server answers {success: false, message: "model unavailable"}. */
  lemma ServerFailureScenario(p: Page)
    requires p.selectedFile.Some?
    ensures var body := Json(false, "", "", [], Some("model unavailable"));
            var q := Concluded(AnalyzedAsWritten(p), Response(true, body));
            q.loadingShown && !q.resultsContentShown
            && q.loadingPane == FailurePane("Analysis Failed", "model unavailable", "Try Again")
            && Removed(q).resultsSectionShown == false
  {
  }

  /** The request is rejected by the network: the rejection's own message is shown. */
  lemma TransportFailureScenario(p: Page, error: string)
    requires p.selectedFile.Some?
    ensures Concluded(AnalyzedAsWritten(p), TransportFailure(error)).loadingPane == FailurePane("Analysis Failed", error, "Try Again")
  {
  }

  // ----- The stale failure box -----

  /**
   * As written, a failed analysis followed by Try Again, a new file and
   * Analyze shows the old failure box in the loading pane while the new
   * request is in flight, instead of the spinner.
   */
  lemma StaleFailureWhileLoading(file: FileInfo, dataUrl: string)
    requires Validate(file) == Accepted
    ensures var failed := Concluded(AnalyzedAsWritten(PreviewLoaded(Selected(Initial(), file), dataUrl)),
                                    TransportFailure("Failed to fetch"));
            var again := AnalyzedAsWritten(PreviewLoaded(Selected(Removed(failed), file), dataUrl));
            again.loadingShown && !again.resultsContentShown
            && again.loadingPane == FailurePane("Analysis Failed", "Failed to fetch", "Try Again")
  {
  }

  /** With the correction, the loading pane holds the spinner whenever a request is started. */
  lemma AnalyzedRestoresSpinner(p: Page)
    requires p.selectedFile.Some?
    ensures Analyzed(p).loadingShown && Analyzed(p).loadingPane == Spinner
    ensures Analyzed(p) == AnalyzedAsWritten(p).(loadingPane := Spinner)
  {
  }

  // ----- The page object -----

  class UploadPage {
    /** The detector the page posts to (set by the hosting page). */
    const detectorType: string

    var selectedFile: Option<FileInfo>
    var pickerFiles: seq<FileInfo>
    var pendingRead: Option<FileInfo>
    var previewSource: string
    var uploadContentShown: bool
    var previewShown: bool
    var resultsSectionShown: bool
    var loadingShown: bool
    var resultsContentShown: bool
    var loadingPane: LoadingPane
    var predictionText: string
    var tone: Option<Tone>
    var confidenceText: string
    var breakdown: seq<Line>

    function State(): Page
      reads this
    {
      Page(selectedFile, pickerFiles, pendingRead, previewSource, uploadContentShown, previewShown,
           resultsSectionShown, loadingShown, resultsContentShown, loadingPane, predictionText, tone,
           confidenceText, breakdown)
    }

    constructor (detectorType: string)
      ensures State() == Initial() && this.detectorType == detectorType
    {
      this.detectorType := detectorType;
      selectedFile, pickerFiles, pendingRead, previewSource := None, [], None, "";
      uploadContentShown, previewShown := true, false;
      resultsSectionShown, loadingShown, resultsContentShown := false, false, false;
      loadingPane := Spinner;
      predictionText, tone, confidenceText, breakdown := "", None, "", [];
    }

    /** The upload area's click handler: it opens the file dialog only with no selection and outside the preview. */
    method HandleUploadAreaClick(targetInPreview: bool) returns (opensPicker: bool)
      ensures opensPicker <==> selectedFile.None? && !targetInPreview
    {
      if selectedFile.Some? {
        return false;
      }
      if targetInPreview {
        return false;
      }
      opensPicker := true;
    }

    method ProcessFile(file: FileInfo) returns (notice: Option<string>)
      modifies this
      ensures notice == NoticeFor(file)
      ensures State() == Selected(old(State()), file)
    {
      if file.mediaType !in ValidTypes {
        return Some(TypeNotice);
      }
      if file.size > MaxFileSize {
        return Some(SizeNotice);
      }
      selectedFile := Some(file);
      pendingRead := Some(file);
      notice := None;
    }

    method HandleFileSelect(files: seq<FileInfo>) returns (notice: Option<string>)
      modifies this
      ensures notice == if |files| > 0 then NoticeFor(files[0]) else None
      ensures State() == PickedFromInput(old(State()), files)
    {
      pickerFiles := files;
      notice := None;
      if |files| > 0 {
        notice := ProcessFile(files[0]);
      }
    }

    method HandleDrop(files: seq<FileInfo>) returns (notice: Option<string>)
      modifies this
      ensures notice == if |files| > 0 then NoticeFor(files[0]) else None
      ensures State() == Dropped(old(State()), files)
    {
      notice := None;
      if |files| > 0 {
        notice := ProcessFile(files[0]);
      }
    }

    /** The FileReader's onload for the read that ProcessFile started. */
    method CompletePreviewRead(dataUrl: string)
      requires pendingRead.Some?
      modifies this
      ensures State() == PreviewLoaded(old(State()), dataUrl)
    {
      previewSource := dataUrl;
      uploadContentShown := false;
      previewShown := true;
      pendingRead := None;
    }

    method RemoveImage()
      modifies this
      ensures State() == Removed(old(State()))
    {
      selectedFile := None;
      pickerFiles := [];
      uploadContentShown := true;
      previewShown := false;
      resultsSectionShown := false;
    }

    /** The Try Again action: removeImage, then a scroll that is not modelled. */
    method ResetAnalysis()
      modifies this
      ensures State() == Removed(old(State()))
    {
      RemoveImage();
    }

    /** Shows the loading state and hands back the request to send; with no selection, only the notice. */
    method AnalyzeImage() returns (notice: Option<string>, request: Option<Request>)
      modifies this
      ensures notice.Some? <==> old(selectedFile).None?
      ensures notice.Some? ==> notice.value == NoSelectionNotice
      ensures request == RequestFor(old(State()), detectorType)
      ensures State() == AnalyzedAsWritten(old(State()))
    {
      if selectedFile.None? {
        return Some(NoSelectionNotice), None;
      }
      resultsSectionShown := true;
      loadingShown := true;
      resultsContentShown := false;
      notice := None;
      request := Some(Request("/predict/" + detectorType, "file", selectedFile.value));
    }

    /** The continuation of analyzeImage once the fetch settles. */
    method ReceiveOutcome(o: Outcome)
      modifies this
      ensures State() == Concluded(old(State()), o)
    {
      var reading := Read(o);
      match reading
      case Display(prediction) =>
        DisplayResults(prediction);
      case Fail(message) =>
        loadingPane := FailurePane(FailedHeading, message, RetryLabel);
    }

    method DisplayResults(prediction: Prediction)
      modifies this
      ensures State() == Shown(old(State()), prediction)
    {
      loadingShown := false;
      resultsContentShown := true;
      predictionText := prediction.predicted;
      tone := Some(ToneOf(prediction.predicted));
      confidenceText := PercentText(prediction.confidence);
      var entries := prediction.breakdown;
      breakdown := [Heading(DetailedResults)];
      for i := 0 to |entries|
        invariant breakdown == [Heading(DetailedResults)] + BreakdownRows(entries)[..i]
        invariant State() == Shown(old(State()), prediction).(breakdown := breakdown)
      {
        breakdown := breakdown + [Row(entries[i].0, PercentText(entries[i].1))];
      }
      assert BreakdownRows(entries)[..|entries|] == BreakdownRows(entries);
    }
  }
}
