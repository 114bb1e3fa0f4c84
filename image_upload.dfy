/**
 * The upload widget (src/components/ImageUpload.jsx): the checks a chosen or
 * dropped file must pass before the page's `onImageSelect` callback sees it,
 * and the camera button. The file checks are shared with the contribution
 * form, which applies the same two rules.
 */
module ImageUpload {

  /** The parts of a browser `File` the checks read. */
  datatype ImageFile = ImageFile(name: string, mimeType: string, size: nat)

  /** 10 MB, the largest accepted size in bytes. */
  const MaxImageBytes: nat := 10 * 1024 * 1024

  datatype ImageCheck = NotAnImage | TooLarge | Acceptable

  /** The type test comes first, then the size test; the limit itself is accepted. */
  function CheckImage(f: ImageFile): (c: ImageCheck)
    ensures c == Acceptable <==> "image/" <= f.mimeType && f.size <= MaxImageBytes
    ensures c == NotAnImage <==> !("image/" <= f.mimeType)
    ensures c == TooLarge <==> "image/" <= f.mimeType && f.size > MaxImageBytes
  {
    if !("image/" <= f.mimeType) then NotAnImage
    else if f.size > MaxImageBytes then TooLarge
    else Acceptable
  }

  /** What handling a file does: nothing, an alert, or one call of `onImageSelect` with that file. */
  datatype Effect = NoEffect | Alert(message: string) | SelectImage(file: ImageFile)

  /** `handleImage`, given whether the page supplied `onImageSelect`. */
  function HandleImage(f: ImageFile, hasOnImageSelect: bool): (e: Effect)
    ensures e.SelectImage? <==> CheckImage(f) == Acceptable && hasOnImageSelect
    ensures e.SelectImage? ==> e.file == f
    ensures e.Alert? <==> CheckImage(f) != Acceptable
    ensures e == NoEffect <==> CheckImage(f) == Acceptable && !hasOnImageSelect
  {
    match CheckImage(f)
    case NotAnImage => Alert("Please select an image file")
    case TooLarge => Alert("Image size should be less than 10MB")
    case Acceptable => if hasOnImageSelect then SelectImage(f) else NoEffect
  }

  /** `handleFileSelect` and `handleDrop`: only the first file of the event is considered, if there is one. */
  function HandleFiles(files: seq<ImageFile>, hasOnImageSelect: bool): (e: Effect)
    ensures files == [] ==> e == NoEffect
    ensures files != [] ==> e == HandleImage(files[0], hasOnImageSelect)
  {
    if files == [] then NoEffect else HandleImage(files[0], hasOnImageSelect)
  }

  datatype CameraEffect = CallOnImageCapture | OpenFilePicker

  /** `handleCameraClick`: the page's capture callback if it supplied one, otherwise the file picker. */
  function HandleCameraClick(hasOnImageCapture: bool): (e: CameraEffect)
    ensures e == CallOnImageCapture <==> hasOnImageCapture
  {
    if hasOnImageCapture then CallOnImageCapture else OpenFilePicker
  }

  /** A file of exactly 10 MB is accepted; one byte more is refused; a non-image is refused whatever its size. */
  lemma SizeBoundary(name: string, mimeType: string)
    ensures "image/" <= mimeType ==> CheckImage(ImageFile(name, mimeType, MaxImageBytes)) == Acceptable
    ensures "image/" <= mimeType ==> CheckImage(ImageFile(name, mimeType, MaxImageBytes + 1)) == TooLarge
    ensures !("image/" <= mimeType) ==> CheckImage(ImageFile(name, mimeType, MaxImageBytes + 1)) == NotAnImage
  {
  }
}
