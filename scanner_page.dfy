/**
 * The scanner page (src/app/scanner/page.js): the same flow as the home
 * page, but a failure's message is turned into friendlier text by what it
 * mentions.
 */
module ScannerPage {
  import opened Wrappers
  import opened Text
  import opened ImageUpload
  import opened ImageAnalysis
  import AnalyzeRoute

  const ApiKeyText := "Gemini API key is not configured. Please check your environment variables."
  const ParseText := "Unable to read nutrition information from the image. Please try a clearer image with visible nutrition labels."
  const NetworkText := "Network error. Please check your internet connection and try again."

  /**
   * The classification, tested in order: "API key", then "parse", then
   * "network" or "fetch"; any other message is shown as it is.
   */
  function Friendly(m: string): (r: string)
    ensures Contains(m, "API key") ==> r == ApiKeyText
    ensures !Contains(m, "API key") && Contains(m, "parse") ==> r == ParseText
    ensures !Contains(m, "API key") && !Contains(m, "parse") && (Contains(m, "network") || Contains(m, "fetch")) ==>
      r == NetworkText
    ensures !Contains(m, "API key") && !Contains(m, "parse") && !Contains(m, "network") && !Contains(m, "fetch") ==>
      r == m
  {
    if Contains(m, "API key") then ApiKeyText
    else if Contains(m, "parse") then ParseText
    else if Contains(m, "network") || Contains(m, "fetch") then NetworkText
    else m
  }

  /**
   * The message chosen before classification as lines 90-96 write it:
   * `err.message` if truthy, else `err.message` again for an `Error`,
   * else the default text.
   */
  function RawMessageAsWritten(t: Thrown): (m: string)
    ensures t.OtherValue? ==> m == ErrorText(t)
    ensures t.ErrorObject? ==> m == t.text
  {
    if Truthy(Message(t)) then Message(t).value
    else if t.ErrorObject? then t.text
    else DefaultError
  }

  /** As written, an `Error` with an empty message clears the error text instead of falling back to the default. */
  lemma EmptyErrorMessageIsLost()
    ensures Friendly(RawMessageAsWritten(ErrorObject(""))) == ""
    ensures ScannerError(ErrorObject("")) == DefaultError
  {
    NothingToClassify(DefaultError, 'A', 'p', 'w', 'h');
  }

  /** The error the page shows: the message, or the default text when it is empty, then classified. */
  function ScannerError(t: Thrown): (r: string)
    ensures r != ""
  {
    Friendly(ErrorText(t))
  }

  /*
   * The analysis route's error texts, as the page shows them after a non-OK
   * reply carrying them (or none).
   */

  lemma ApiKeyErrorAsShown()
    ensures ScannerError(ThrownBy(NotOk(Some(AnalyzeRoute.ApiKeyMissing)))) == ApiKeyText
  {
    assert "API key" <= AnalyzeRoute.ApiKeyMissing[7..];
  }

  lemma ParseErrorAsShown()
    ensures ScannerError(ThrownBy(NotOk(Some(AnalyzeRoute.ParseFailed)))) == ParseText
  {
    MissingCharacter(AnalyzeRoute.ParseFailed, "API key", 'A');
    assert "parse" <= AnalyzeRoute.ParseFailed[10..];
  }

  lemma NoImageErrorAsShown()
    ensures ScannerError(ThrownBy(NotOk(Some(AnalyzeRoute.NoImageProvided)))) == AnalyzeRoute.NoImageProvided
  {
    NothingToClassify(AnalyzeRoute.NoImageProvided, 'A', 's', 'w', 't');
  }

  lemma AnalysisErrorAsShown()
    ensures ScannerError(ThrownBy(NotOk(Some(AnalyzeRoute.AnalysisFailed)))) == AnalyzeRoute.AnalysisFailed
  {
    NothingToClassify(AnalyzeRoute.AnalysisFailed, 'A', 'p', 'w', 'h');
  }

  lemma UnexplainedFailureAsShown()
    ensures ScannerError(ThrownBy(NotOk(None))) == AnalyzeFailed
  {
    NothingToClassify(AnalyzeFailed, 'A', 'p', 'w', 'h');
  }

  /** A message lacking one character of each keyword is shown unchanged. */
  lemma NothingToClassify(m: string, a: char, p: char, n: char, f: char)
    requires a in "API key" && p in "parse" && n in "network" && f in "fetch"
    requires forall i | 0 <= i < |m| :: m[i] != a && m[i] != p && m[i] != n && m[i] != f
    ensures Friendly(m) == m
  {
    MissingCharacter(m, "API key", a);
    MissingCharacter(m, "parse", p);
    MissingCharacter(m, "network", n);
    MissingCharacter(m, "fetch", f);
  }

  class Scanner {
    var selectedImage: Option<ImageFile>
    var imagePreview: Option<string>
    var nutritionData: Option<AnalysisData>
    var loading: bool
    var error: Option<string>

    constructor ()
      ensures selectedImage == None && imagePreview == None && nutritionData == None
      ensures !loading && error == None
    {
      selectedImage, imagePreview, nutritionData := None, None, None;
      loading := false;
      error := None;
    }

    /** `handleImageSelect` (also used for camera captures). */
    method HandleImageSelect(file: ImageFile)
      modifies this`selectedImage, this`error, this`nutritionData
      ensures selectedImage == Some(file) && error == None && nutritionData == None
    {
      selectedImage := Some(file);
      error := None;
      nutritionData := None;
    }

    method PreviewLoaded(dataUrl: string)
      modifies this`imagePreview
      ensures imagePreview == Some(dataUrl)
    {
      imagePreview := Some(dataUrl);
    }

    /**
     * `handleAnalyze`. Without an image only the error is set and loading
     * is untouched. Otherwise loading ends false on every path; a successful
     * reply replaces the result and may save a scan (a failed save sets no
     * error and keeps the result); a failure shows the classified message.
     */
    method HandleAnalyze(log: ScanLog, user: Option<string>, dbAvailable: bool, outcome: AnalyzeOutcome,
                         writeSucceeds: bool)
      modifies this, log
      ensures old(selectedImage).None? ==>
        error == Some(NoImageError) && loading == old(loading) && selectedImage == old(selectedImage)
        && nutritionData == old(nutritionData) && log.scans == old(log.scans)
      ensures old(selectedImage).Some? ==> !loading && selectedImage == old(selectedImage)
      ensures old(selectedImage).Some? && outcome.Ok? ==>
        nutritionData == outcome.data && error == None
        && log.scans == old(log.scans) + SavedScans(user, dbAvailable, outcome.data, old(imagePreview), writeSucceeds)
      ensures old(selectedImage).Some? && !outcome.Ok? ==>
        nutritionData == old(nutritionData) && log.scans == old(log.scans)
        && error == Some(ScannerError(ThrownBy(outcome)))
      ensures imagePreview == old(imagePreview)
    {
      if selectedImage.None? {
        error := Some(NoImageError);
        return;
      }
      loading := true;
      error := None;
      if outcome.Ok? {
        nutritionData := outcome.data;
        log.scans := log.scans + SavedScans(user, dbAvailable, outcome.data, imagePreview, writeSucceeds);
      } else {
        error := Some(ScannerError(ThrownBy(outcome)));
      }
      loading := false;
    }

    /** `handleReset`: image, preview, result and error cleared. */
    method HandleReset()
      modifies this`selectedImage, this`imagePreview, this`nutritionData, this`error
      ensures selectedImage == None && imagePreview == None && nutritionData == None && error == None
    {
      selectedImage, imagePreview, nutritionData := None, None, None;
      error := None;
    }
  }
}
