# Multi_Cancer front end, modelled in Dafny

This project models the two client-side components of the Multi_Cancer web pages. The
network, the browser APIs and the HTML markup are lifted out into plain values.

* **Upload-and-predict flow** (`static/js/main.js`). The page holds one selected-file slot and
  the visibility of five panes: the upload prompt, the preview, the results section, the loading
  pane and the results content. The model covers:
  * file validation: a media-type whitelist, then an inclusive 16 MiB ceiling;
  * the preview, which appears only when the file read completes;
  * remove/reset;
  * Analyze, which shows the loading state and issues one `POST /predict/{detectorType}`;
  * the outcome of that request, which either renders the prediction (label, warning or neutral
    tone from a keyword match, confidence text, one row per class in order) or writes a failure
    box into the loading pane;
  * the `formatClassName` helper.
* **Catalog renderer** (`static/js/index.js`). The model covers the fixed catalog of eight
  detectors, the card built for each entry, the loop that appends the cards to the grid in
  catalog order, and the count of entries whose status is `"ready"`.

Files:

* `wrappers.dfy`: the Option type.
* `js_strings.dfy`: the JavaScript string built-ins used by the code. These are ASCII
  `toLowerCase`/`toUpperCase`, `includes`, one-character `split` and `join`.
* `upload_rules.dfy`: the pure rules of main.js.
* `upload_flow.dfy`: two views of the same page state.
  * `Page` is a value with one transition function per event.
  * `UploadPage` is a class whose fields are updated step by step. Each method is proved to
    produce the state its transition function gives.
* `catalog.dfy`: index.js.

Numbers from the server (the confidence and each class percentage) are carried as the text
JavaScript prints for them. Alerts become returned notices. The fetch becomes a returned
`Request`, and its settlement is delivered later as an `Outcome`. The FileReader's completion
is also a separate step.

On these points the model follows what main.js does:

* A rejected fetch (a transport failure) shows the rejection's own message. It does not show a
  generic fallback. `"Prediction failed"` appears only when a decoded body has no message or an
  empty one.
* Success needs both the HTTP `ok` flag and the body's `success` flag.
* The body is decoded before `ok` is looked at. A body that is not JSON therefore fails with the
  decoder's message, whatever the status.

## Model

| member | source | states |
|---|---|---|
| `UploadRules.ValidateAcceptsExactly` | static/js/main.js:56-69 | a file is accepted iff its type is image/png, image/jpeg or image/jpg and its size is at most 16777216 bytes |
| `UploadRules.SizeCeilingInclusive` | static/js/main.js:64-69 | a whitelisted file of exactly 16 MiB is accepted; one byte more is rejected with the size notice |
| `UploadRules.TypeCheckedFirst` | static/js/main.js:57-62 | a file with a non-whitelisted type gets the type notice whatever its size |
| `UploadRules.ReadSucceedsIff` | static/js/main.js:128-134 | the response is rendered iff it arrived, its body decoded, HTTP ok is true and the body's success is true |
| `UploadRules.ReadFailureMessage` | static/js/main.js:130-134 | a decoded failure shows the body's message when present and non-empty, else "Prediction failed" |
| `UploadRules.ToneWarningIff` | static/js/main.js:166-179 | the tone is Warning iff one of malignant, tumor, cancer, abnormal, stone occurs at some position of the lower-cased label |
| `UploadRules.ToneIgnoresCase` | static/js/main.js:167-171 | the tone of a label equals the tone of its lower-cased form |
| `UploadRules.ToneWarningExample` | static/js/main.js:166-174 | "Kidney Stone" is shown with the warning treatment |
| `UploadRules.ToneNeutralExample` | static/js/main.js:175-179 | "Benign" is shown with the neutral treatment |
| `UploadRules.RenderOneRowPerClass` | static/js/main.js:163-196 | the view shows the label, confidence followed by "%", the "Detailed Results" heading and then exactly one row per class in mapping order with its percentage followed by "%" |
| `UploadRules.FormatClassNameIsFormatted` | static/js/main.js:208-213 | split/capitalise/join equals the character-by-character reference reading |
| `UploadRules.FormatClassNameAt` | static/js/main.js:208-213 | at every position, "_" becomes a space, the first character and every character after "_" are upper-cased, every other character is kept |
| `UploadRules.FormatClassNameShape` | static/js/main.js:208-213 | the output holds no "_" and has the input's length |
| `UploadRules.FormatClassNameIdempotent` | static/js/main.js:208-213 | formatting a formatted name returns it unchanged |
| `JsStrings.IncludesIff` | static/js/main.js:167-171 | `includes` holds iff the needle occurs at some index of the text |
| `JsStrings.Split` | static/js/main.js:210 | split yields at least one piece and no piece contains the separator |
| `JsStrings.JoinSplit` | static/js/main.js:209-212 | joining the pieces of a split with the same separator gives back the input |
| `JsStrings.LowerIdempotent` | static/js/main.js:167 | lower-casing twice is lower-casing once |
| `UploadFlow.RejectedFileChangesNothing` | static/js/main.js:56-69 | a rejected file leaves the whole page state unchanged and yields its notice |
| `UploadFlow.AcceptedFileShownAfterRead` | static/js/main.js:71-86 | an accepted file replaces the selection and changes nothing else until the read completes; then the preview is shown with the read's data URL and the prompt hidden |
| `UploadFlow.RemoveIsIdempotent` | static/js/main.js:91-97 | after removal nothing is selected, the input is empty, the prompt is shown, preview and results hidden; removing twice equals removing once |
| `UploadFlow.AnalyzeNeedsSelection` | static/js/main.js:99-103 | with no selection Analyze changes nothing and sends no request |
| `UploadFlow.AnalyzeShowsLoading` | static/js/main.js:105-126 | with a selection the results section and loading pane are shown, the content hidden, the loading pane keeps whatever it last held, and the request posts that file as field "file" to /predict/{detectorType} |
| `UploadFlow.TransitionsKeepConsistent` | static/js/main.js:78-97 | every transition keeps exactly one of the upload prompt and the preview visible |
| `UploadFlow.FailureKeepsFlags` | static/js/main.js:135-148 | a failure only writes the "Analysis Failed" box with its message and "Try Again" into the loading pane |
| `UploadFlow.MalignantScenario` | static/js/main.js:151-196 | a success for "Malignant" at 87.5 with two classes shows the label in the warning tone, "87.5%" and the two rows in order |
| `UploadFlow.ServerFailureScenario` | static/js/main.js:130-148 | success false with message "model unavailable" shows that message in the failure box; the retry returns to idle |
| `UploadFlow.TransportFailureScenario` | static/js/main.js:121-148 | a rejected fetch shows the rejection's message in the failure box |
| `UploadFlow.StaleFailureWhileLoading` | static/js/main.js:105-148 | as written, after a failure, Try Again, a new file and Analyze, the loading pane still shows the old failure box |
| `UploadFlow.AnalyzedRestoresSpinner` | static/js/main.js:110-112 | the corrected Analyze (not used by the page class, which follows the code) shows the spinner in the loading pane and otherwise matches the code as written |
| `UploadFlow.UploadPage.constructor` | static/js/main.js:1-2 | the page starts with no selection, the prompt shown and everything else hidden |
| `UploadFlow.UploadPage.HandleUploadAreaClick` | static/js/main.js:15-20 | the click opens the file dialog iff nothing is selected and the click was not inside the preview |
| `UploadFlow.UploadPage.ProcessFile` | static/js/main.js:56-73 | returns the validation notice and moves the page to the `Selected` state |
| `UploadFlow.UploadPage.HandleFileSelect` | static/js/main.js:26-31 | the input holds the chosen files and the first one, if any, is processed |
| `UploadFlow.UploadPage.HandleDrop` | static/js/main.js:45-54 | the first dropped file, if any, is processed; the input is untouched |
| `UploadFlow.UploadPage.CompletePreviewRead` | static/js/main.js:75-89 | the read's completion shows the preview and hides the prompt |
| `UploadFlow.UploadPage.RemoveImage` | static/js/main.js:91-97 | moves the page to the `Removed` state |
| `UploadFlow.UploadPage.ResetAnalysis` | static/js/main.js:199-205 | has the same state effect as RemoveImage |
| `UploadFlow.UploadPage.AnalyzeImage` | static/js/main.js:99-120 | returns the no-selection notice or the request, and moves the page to the `AnalyzedAsWritten` state: three display flags change, the loading pane's content does not |
| `UploadFlow.UploadPage.ReceiveOutcome` | static/js/main.js:121-148 | moves the page to the state the settled request calls for |
| `UploadFlow.UploadPage.DisplayResults` | static/js/main.js:151-197 | the loop leaves the heading followed by one row per class in order, together with the label, tone and confidence of the rendered view |
| `Catalog.ShippedCatalogKeyed` | static/js/index.js:2-51 | the shipped catalog has eight entries with distinct ids |
| `Catalog.CardsFollowCatalog` | static/js/index.js:57-63 | one card per entry in catalog order, carrying data-cancer = id and data-status = status |
| `Catalog.CardReflectsStatus` | static/js/index.js:57-99 | a card is "available" with the "Ready" badge and an outbound link to the entry's link (target _blank, rel "noopener noreferrer") iff its status is "ready"; otherwise it is "unavailable" with "Coming Soon" and a disabled button |
| `Catalog.CardImageKeyedById` | static/js/index.js:76-80 | the image is static/images/{id}.png, replaced by static/images/placeholder.png only when loading it fails |
| `Catalog.ReadyEntries` | static/js/index.js:112 | the filter keeps exactly the ready entries and is no longer than the catalog |
| `Catalog.ReadyModelsCountsAvailableCards` | static/js/index.js:57-112 | the ready counter equals the number of cards rendered as available |
| `Catalog.ReadyModelsFullIff` | static/js/index.js:112 | the counter equals the catalog size iff every entry is ready |
| `Catalog.ShippedReadyModels` | static/js/index.js:2-112 | for the shipped catalog the counter is 8 |
| `Catalog.LandingPage.GenerateCancerCards` | static/js/index.js:54-105 | the grid gains exactly the catalog's cards, in order, after what it held |
| `Catalog.LandingPage.Initialize` | static/js/index.js:108-113 | renders the shipped catalog and writes 8 into the summary |

## Left out

- DOM details: the markup, inline styles, gradients, the SVG icons and status icons, the hover
  transforms, the dragover class and `scrollIntoView`. Cards and results are records, not HTML.
- `fetch`, `FormData`, `FileReader` and JSON decoding are foreign calls. Their results are
  inputs: an `Outcome` and a data URL.
- The 100 ms deferred width of the confidence bar (a timer) is left out. So is the text
  JavaScript prints for a number; confidence and percentages are opaque text.
- Re-entrant Analyze clicks are left out. So are stale read or response callbacks that arrive
  after a newer selection. Only the most recent preview read is tracked (`pendingRead`).
- A success body without `prediction` or `all_predictions` is left out. In the code this throws
  a TypeError half-way through displayResults. Such a body is outside the server's interface.
- Object.entries puts integer-like keys first, in ascending order. That ordering is left out:
  the class mapping is taken in the iteration order it arrives in.
- The keyword match and the capitalisation use ASCII case mapping only. Unicode case mapping,
  which can change a string's length (for example "ß" to "SS"), is left out.
- The `console.error` call is left out.
- The initial markup of the page is left out. The constructor assumes the prompt is shown and
  everything else is hidden.

## Findings

| source | as written | input that shows it | evidently intended | confidence | as-written member | corrected member |
|---|---|---|---|---|---|---|
| static/js/main.js:110-112 | analyzeImage shows the loading pane but never puts the spinner back after the catch block has written the failure box into it | a failed analysis, then Try Again, a new valid file and Analyze: the old "Analysis Failed" box is shown while the new request is pending | the loading pane shows the spinner whenever a request starts | medium, not executed (the page's initial loading markup is not part of this model) | `UploadFlow.StaleFailureWhileLoading` | `UploadFlow.AnalyzedRestoresSpinner` |
