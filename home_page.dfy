/**
 * The home page (src/app/page.js): choose an image, send it for analysis,
 * show the result or an error, save a scan for a signed-in user, reset.
 */
module HomePage {
  import opened Wrappers
  import opened ImageUpload
  import opened ImageAnalysis

  class Home {
    var selectedImage: Option<ImageFile>
    var imagePreview: Option<string>
    var nutritionData: Option<AnalysisData>
    var loading: bool
    var error: Option<string>

    constructor ()
      ensures selectedImage == None && imagePreview == None && nutritionData == None
      ensures !loading && error == None
    {
      selectedImage, imagePreview, nutritionData := None, None, None;
      loading := false;
      error := None;
    }

    /** `handleImageSelect` (also used for camera captures): the preview follows when the file has been read. */
    method HandleImageSelect(file: ImageFile)
      modifies this`selectedImage, this`error, this`nutritionData
      ensures selectedImage == Some(file) && error == None && nutritionData == None
    {
      selectedImage := Some(file);
      error := None;
      nutritionData := None;
    }

    method PreviewLoaded(dataUrl: string)
      modifies this`imagePreview
      ensures imagePreview == Some(dataUrl)
    {
      imagePreview := Some(dataUrl);
    }

    /**
     * `handleAnalyze`. Without an image only the error is set. Otherwise
     * loading ends false on every path; a successful reply replaces the
     * result and may save a scan; a failure shows the message or the
     * default text; a failed save is ignored.
     */
    method HandleAnalyze(log: ScanLog, user: Option<string>, dbAvailable: bool, outcome: AnalyzeOutcome,
                         writeSucceeds: bool)
      modifies this, log
      ensures old(selectedImage).None? ==>
        error == Some(NoImageError) && loading == old(loading) && selectedImage == old(selectedImage)
        && nutritionData == old(nutritionData) && log.scans == old(log.scans)
      ensures old(selectedImage).Some? ==> !loading && selectedImage == old(selectedImage)
      ensures old(selectedImage).Some? && outcome.Ok? ==>
        nutritionData == outcome.data && error == None
        && log.scans == old(log.scans) + SavedScans(user, dbAvailable, outcome.data, old(imagePreview), writeSucceeds)
      ensures old(selectedImage).Some? && !outcome.Ok? ==>
        nutritionData == old(nutritionData) && log.scans == old(log.scans)
        && error == Some(ErrorText(ThrownBy(outcome)))
      ensures imagePreview == old(imagePreview)
    {
      if selectedImage.None? {
        error := Some(NoImageError);
        return;
      }
      loading := true;
      error := None;
      if outcome.Ok? {
        nutritionData := outcome.data;
        log.scans := log.scans + SavedScans(user, dbAvailable, outcome.data, imagePreview, writeSucceeds);
      } else {
        error := Some(ErrorText(ThrownBy(outcome)));
      }
      loading := false;
    }

    /** `handleReset`: all four fields cleared. */
    method HandleReset()
      modifies this`selectedImage, this`imagePreview, this`nutritionData, this`error
      ensures selectedImage == None && imagePreview == None && nutritionData == None && error == None
    {
      selectedImage, imagePreview, nutritionData := None, None, None;
      error := None;
    }
  }
}
