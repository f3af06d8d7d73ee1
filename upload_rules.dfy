/**
 * The pure rules of the upload-and-predict page (static/js/main.js):
 * file validation, the reading of a prediction response, the result view
 * (label tone, confidence text, per-class rows) and formatClassName.
 *
 * Numbers the server sends (the confidence and each class percentage) are
 * carried as the text JavaScript would print for them; how a JS number is
 * turned into text is not part of this model.
 */
module UploadRules {
  import opened Wrappers
  import opened JsStrings

  // ----- File validation (processFile) -----

  /** What the page sees of a chosen File: its name, declared media type and byte size. */
  datatype FileInfo = FileInfo(name: string, mediaType: string, size: nat)

  const ValidTypes: seq<string> := ["image/png", "image/jpeg", "image/jpg"]
  const MaxFileSize: nat := 16 * 1024 * 1024
  const TypeNotice: string := "Please upload a PNG, JPG, or JPEG image."
  const SizeNotice: string := "File size must be less than 16MB."

  datatype Verdict = Accepted | Rejected(notice: string)

  /** The media-type whitelist is checked first, then the size ceiling. */
  function Validate(file: FileInfo): Verdict
  {
    if file.mediaType !in ValidTypes then Rejected(TypeNotice)
    else if file.size > MaxFileSize then Rejected(SizeNotice)
    else Accepted
  }

  /** Accepted exactly for the three image types at 16 MiB or less. */
  lemma ValidateAcceptsExactly(file: FileInfo)
    ensures Validate(file) == Accepted <==>
              (file.mediaType == "image/png" || file.mediaType == "image/jpeg" || file.mediaType == "image/jpg")
              && file.size <= 16777216
  {
  }

  /** A file of exactly 16 MiB passes; one byte more is refused with the size notice. */
  lemma SizeCeilingInclusive(name: string, mediaType: string)
    requires mediaType in ValidTypes
    ensures Validate(FileInfo(name, mediaType, 16777216)) == Accepted
    ensures Validate(FileInfo(name, mediaType, 16777217)) == Rejected(SizeNotice)
  {
  }

  /** A file failing both checks gets the type notice: the type check runs first. */
  lemma TypeCheckedFirst(file: FileInfo)
    requires file.mediaType !in ValidTypes
    ensures Validate(file) == Rejected(TypeNotice)
  {
  }

  // ----- The prediction response (analyzeImage) -----

  /** A response body: text that is not JSON, or the decoded object. */
  datatype Body =
    | Unparseable(parseError: string)
    | Json(success: bool, prediction: string, confidence: string,
           allPredictions: seq<(string, string)>, message: Option<string>)

  /** What the awaited fetch delivers: a rejected promise, or a response with its HTTP ok flag. */
  datatype Outcome = TransportFailure(error: string) | Response(ok: bool, body: Body)

  /** A successful prediction: the label, its confidence and the class breakdown in iteration order. */
  datatype Prediction = Prediction(predicted: string, confidence: string, breakdown: seq<(string, string)>)

  datatype Reading = Display(prediction: Prediction) | Fail(message: string)

  const FallbackMessage: string := "Prediction failed"

  /**
   * The try/catch of analyzeImage: the body is decoded before `ok` is looked
   * at, so a body that is not JSON fails with the decoder's message whatever
   * the status; an empty or missing `message` falls back to the generic text.
   */
  function Read(o: Outcome): Reading
  {
    match o
    case TransportFailure(e) => Fail(e)
    case Response(_, Unparseable(e)) => Fail(e)
    case Response(ok, Json(success, p, c, all, msg)) =>
      if ok && success then Display(Prediction(p, c, all))
      else Fail(if msg.Some? && msg.value != "" then msg.value else FallbackMessage)
  }

  /** Success iff the HTTP status is ok and the decoded body says success. */
  lemma ReadSucceedsIff(o: Outcome)
    ensures Read(o).Display? <==> o.Response? && o.ok && o.body.Json? && o.body.success
  {
  }

  /** A decoded failure shows the server's message when it has one, else "Prediction failed". */
  lemma ReadFailureMessage(ok: bool, body: Body)
    requires body.Json? && !(ok && body.success)
    ensures body.message.Some? && body.message.value != "" ==> Read(Response(ok, body)) == Fail(body.message.value)
    ensures body.message.None? || body.message.value == "" ==> Read(Response(ok, body)) == Fail("Prediction failed")
  {
  }

  // ----- The result view (displayResults) -----

  datatype Tone = Warning | Neutral

  const WarningKeywords: seq<string> := ["malignant", "tumor", "cancer", "abnormal", "stone"]

  /** The colour treatment of the label: a case-insensitive substring test against the keywords. */
  function ToneOf(text: string): Tone
  {
    if exists k :: k in WarningKeywords && Includes(Lower(text), k) then Warning else Neutral
  }

  /** Warning exactly when some keyword occurs somewhere in the lower-cased label. */
  lemma ToneWarningIff(text: string)
    ensures ToneOf(text) == Warning <==>
              exists k, i :: k in WarningKeywords && OccursAt(Lower(text), k, i)
  {
    var l := Lower(text);
    IncludesIff(l, "malignant");
    IncludesIff(l, "tumor");
    IncludesIff(l, "cancer");
    IncludesIff(l, "abnormal");
    IncludesIff(l, "stone");
    if k, i :| k in WarningKeywords && OccursAt(l, k, i) {
      assert Includes(l, k);
    }
    if ToneOf(text) == Warning {
      var k :| k in WarningKeywords && Includes(l, k);
      var i :| OccursAt(l, k, i);
    }
  }

  /** The tone does not depend on letter case. */
  lemma ToneIgnoresCase(text: string)
    ensures ToneOf(Lower(text)) == ToneOf(text)
  {
    LowerIdempotent(text);
  }

  /** "Kidney Stone" gets the warning treatment. */
  lemma ToneWarningExample()
    ensures ToneOf("Kidney Stone") == Warning
  {
    var l := Lower("Kidney Stone");
    assert l == "kidney stone";
    assert OccursAt(l, "stone", 7);
    IncludesIff(l, "stone");
  }

  /** "Benign" gets the neutral treatment. */
  lemma ToneNeutralExample()
    ensures ToneOf("Benign") == Neutral
  {
    var b := Lower("Benign");
    assert b == "benign";
    assert !Includes(b, "malignant") && !Includes(b, "abnormal");
    assert !Includes(b, "cancer") by {
      assert b[..6][0] != "cancer"[0];
      assert !Includes(b[1..], "cancer");
    }
    assert !Includes(b, "tumor") by {
      assert b[..5][0] != "tumor"[0] && b[1..][..5][0] != "tumor"[0];
      assert !Includes(b[2..], "tumor");
      assert b[1..][1..] == b[2..];
    }
    assert !Includes(b, "stone") by {
      assert b[..5][0] != "stone"[0] && b[1..][..5][0] != "stone"[0];
      assert !Includes(b[2..], "stone");
      assert b[1..][1..] == b[2..];
    }
  }

  datatype Line = Heading(text: string) | Row(className: string, percent: string)

  const DetailedResults: string := "Detailed Results"

  /** The rendered success view. */
  datatype ResultView = ResultView(predictionText: string, tone: Tone, confidenceText: string, breakdown: seq<Line>)

  function PercentText(n: string): string { n + "%" }

  function BreakdownRows(entries: seq<(string, string)>): seq<Line>
  {
    seq(|entries|, i requires 0 <= i < |entries| => Row(entries[i].0, PercentText(entries[i].1)))
  }

  function Render(p: Prediction): ResultView
  {
    ResultView(p.predicted, ToneOf(p.predicted), PercentText(p.confidence),
               [Heading(DetailedResults)] + BreakdownRows(p.breakdown))
  }

  /** The heading, then one row per class in the mapping's order, nothing sorted or dropped. */
  lemma RenderOneRowPerClass(p: Prediction)
    ensures |Render(p).breakdown| == |p.breakdown| + 1
    ensures Render(p).breakdown[0] == Heading("Detailed Results")
    ensures forall i :: 0 <= i < |p.breakdown| ==>
              Render(p).breakdown[i + 1] == Row(p.breakdown[i].0, p.breakdown[i].1 + "%")
    ensures Render(p).predictionText == p.predicted && Render(p).confidenceText == p.confidence + "%"
  {
  }

  // ----- formatClassName -----

  /** `word.charAt(0).toUpperCase() + word.slice(1)` */
  function Capitalize(word: string): string
  {
    if word == [] then [] else [UpperChar(word[0])] + word[1..]
  }

  function CapitalizeAll(words: seq<string>): seq<string>
  {
    seq(|words|, k requires 0 <= k < |words| => Capitalize(words[k]))
  }

  /** split('_'), capitalise each piece, join(' '). */
  function FormatClassName(className: string): string
  {
    Join(CapitalizeAll(Split(className, '_')), ' ')
  }

  /**
   * Reference reading, one character at a time: an underscore becomes a
   * space; a character at the start of a word (`atWordStart`) is upper-cased.
   */
  function Formatted(s: string, atWordStart: bool): string
  {
    if s == [] then []
    else [if s[0] == '_' then ' ' else if atWordStart then UpperChar(s[0]) else s[0]]
         + Formatted(s[1..], s[0] == '_')
  }

  lemma {:induction false} JoinCapitalizedSplit(s: string, capFirst: bool)
    ensures var w := Split(s, '_');
            Join([if capFirst then Capitalize(w[0]) else w[0]] + CapitalizeAll(w[1..]), ' ')
            == Formatted(s, capFirst)
  {
    if s != [] {
      var rest := Split(s[1..], '_');
      var tail := CapitalizeAll(rest);
      assert tail == [Capitalize(rest[0])] + CapitalizeAll(rest[1..]);
      if s[0] == '_' {
        JoinCapitalizedSplit(s[1..], true);
        assert Split(s, '_')[1..] == rest;
        assert ([[]] + tail)[1..] == tail;
      } else {
        JoinCapitalizedSplit(s[1..], false);
        var w := Split(s, '_');
        assert w[0] == [s[0]] + rest[0] && w[1..] == rest[1..];
        var first := if capFirst then UpperChar(s[0]) else s[0];
        assert (if capFirst then Capitalize(w[0]) else w[0]) == [first] + rest[0];
        JoinConsFirst(first, rest[0], CapitalizeAll(rest[1..]), ' ');
      }
    }
  }

  /** formatClassName agrees with the character-by-character reading. */
  lemma FormatClassNameIsFormatted(s: string)
    ensures FormatClassName(s) == Formatted(s, true)
  {
    var w := Split(s, '_');
    assert CapitalizeAll(w) == [Capitalize(w[0])] + CapitalizeAll(w[1..]);
    JoinCapitalizedSplit(s, true);
  }

  lemma {:induction false} FormattedAt(s: string, atWordStart: bool, i: nat)
    requires i < |s|
    ensures |Formatted(s, atWordStart)| == |s|
    ensures Formatted(s, atWordStart)[i] ==
              if s[i] == '_' then ' '
              else if (i == 0 && atWordStart) || (0 < i && s[i - 1] == '_') then UpperChar(s[i])
              else s[i]
  {
    if i == 0 {
      if |s| > 1 { FormattedAt(s[1..], s[0] == '_', 0); }
    } else {
      FormattedAt(s[1..], s[0] == '_', i - 1);
    }
  }

  /**
   * formatClassName, position by position: same length as the input, every
   * `_` turned into a space, and the first character of the name and each
   * character after a `_` upper-cased.
   */
  lemma FormatClassNameAt(s: string, i: nat)
    requires i < |s|
    ensures |FormatClassName(s)| == |s|
    ensures FormatClassName(s)[i] ==
              if s[i] == '_' then ' '
              else if i == 0 || s[i - 1] == '_' then UpperChar(s[i])
              else s[i]
  {
    FormatClassNameIsFormatted(s);
    FormattedAt(s, true, i);
  }

  lemma {:induction false} FormattedHasNoUnderscore(s: string, atWordStart: bool)
    ensures '_' !in Formatted(s, atWordStart)
  {
    if s != [] { FormattedHasNoUnderscore(s[1..], s[0] == '_'); }
  }

  /** formatClassName leaves no underscore behind and keeps the length (ASCII case mapping). */
  lemma FormatClassNameShape(s: string)
    ensures '_' !in FormatClassName(s)
    ensures |FormatClassName(s)| == |s|
  {
    FormatClassNameIsFormatted(s);
    FormattedHasNoUnderscore(s, true);
    if |s| > 0 { FormattedAt(s, true, 0); }
  }

  lemma {:induction false} FormattedStable(s: string, first: bool, second: bool)
    requires second ==> first
    ensures Formatted(Formatted(s, first), second) == Formatted(s, first)
  {
    if s != [] {
      FormattedStable(s[1..], s[0] == '_', false);
    }
  }

  /** Formatting an already formatted name changes nothing. */
  lemma FormatClassNameIdempotent(s: string)
    ensures FormatClassName(FormatClassName(s)) == FormatClassName(s)
  {
    FormatClassNameIsFormatted(s);
    FormatClassNameIsFormatted(Formatted(s, true));
    FormattedStable(s, true, true);
  }
}
