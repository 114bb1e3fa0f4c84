/**
 * The image analysis endpoint (src/app/api/analyze/route.js): request
 * checks in order, one call of the vision model, cleaning of the model's
 * text and the status codes of each outcome.
 *
 * The configured key, the request body, the model's reply and `JSON.parse`
 * are parameters; the base64 encoding of the image is not modelled.
 */
module AnalyzeRoute {
  import opened Wrappers
  import opened Text
  import opened ImageUpload

  const ModelName := "gemini-1.5-flash"
  const DefaultMimeType := "image/jpeg"

  /** The route's error messages (the last is written in two pieces only to keep literals short). */
  const ApiKeyMissing := "Gemini API key not configured"
  const AnalysisFailed := "Failed to analyze food image"
  const NoImageProvided := "No image file provided"
  const ParseFailed := "Failed to parse nutrition data" + " from image analysis"

  /** `request.formData()`: either it cannot be read, or it is read and may hold an `image` entry. */
  datatype RequestBody = Unreadable(readError: string) | Form(image: Option<ImageFile>)

  /** The one model call the route makes: the model and the image's declared type. */
  datatype ModelCall = ModelCall(model: string, image: ImageFile, mimeType: string)

  /** What `generateContent` gave: the reply text, or a thrown error's message. */
  datatype ModelReply = ModelText(text: string) | ModelFailure(errorMessage: string)

  /** The JSON body and status of the route's response. */
  datatype Response<T> =
    | Success(data: T)
    | Failure(status: int, error: string, message: Option<string>)

  function Status<T>(r: Response<T>): int {
    if r.Success? then 200 else r.status
  }

  datatype Handled<T> = Handled(response: Response<T>, call: Option<ModelCall>)

  /**
   * The text handed to `JSON.parse`: every "```json" (with one newline
   * after it) removed, then every "```" (likewise), then trimmed.
   */
  function CleanModelText(text: string): (r: string)
    ensures IsTrimmed(r) && |r| <= |text|
  {
    Trim(StripAll(StripAll(text, "```json"), "```"))
  }

  /** `POST`, given whether the API key is configured. */
  function Post<T>(hasApiKey: bool, body: RequestBody, reply: ModelReply, parse: string -> Option<T>): (h: Handled<T>)
    ensures !hasApiKey ==> h == Handled(Failure(500, ApiKeyMissing, None), None)
    ensures hasApiKey && body.Unreadable? ==>
      h == Handled(Failure(500, AnalysisFailed, Some(body.readError)), None)
    ensures hasApiKey && body == Form(None) ==> h == Handled(Failure(400, NoImageProvided, None), None)
    ensures h.call.Some? <==> hasApiKey && body.Form? && body.image.Some?
    ensures h.call.Some? ==>
      h.call.value.model == ModelName && h.call.value.image == body.image.value
      && h.call.value.mimeType == (if body.image.value.mimeType != "" then body.image.value.mimeType else DefaultMimeType)
    ensures h.call.Some? && reply.ModelFailure? ==>
      h.response == Failure(500, AnalysisFailed, Some(reply.errorMessage))
    ensures h.call.Some? && reply.ModelText? ==>
      h.response == (match parse(CleanModelText(reply.text))
                     case None => Failure(500, ParseFailed, None)
                     case Some(d) => Success(d))
  {
    if !hasApiKey then Handled(Failure(500, ApiKeyMissing, None), None)
    else match body
      case Unreadable(e) => Handled(Failure(500, AnalysisFailed, Some(e)), None)
      case Form(None) => Handled(Failure(400, NoImageProvided, None), None)
      case Form(Some(file)) =>
        var call := ModelCall(ModelName, file, if file.mimeType != "" then file.mimeType else DefaultMimeType);
        match reply
        case ModelFailure(e) => Handled(Failure(500, AnalysisFailed, Some(e)), Some(call))
        case ModelText(text) =>
          match parse(CleanModelText(text))
          case None => Handled(Failure(500, ParseFailed, None), Some(call))
          case Some(d) => Handled(Success(d), Some(call))
  }

  /** A successful response is exactly what the parser made of the cleaned text: no field is filled in or changed. */
  lemma SuccessIsParsedText<T>(body: RequestBody, reply: ModelReply, parse: string -> Option<T>)
    requires Post(true, body, reply, parse).response.Success?
    ensures reply.ModelText? && parse(CleanModelText(reply.text)) == Some(Post(true, body, reply, parse).response.data)
  {
  }

  /** Text without a backtick is only trimmed. */
  lemma NoBacktickOnlyTrimmed(text: string)
    requires '`' !in text
    ensures CleanModelText(text) == Trim(text)
  {
    StripAllPassThrough(text, [], "```json");
    assert text + [] == text;
    StripAllPassThrough(text, [], "```");
  }

  /** A fenced JSON block cleans to its trimmed body. */
  lemma FencedBlockCleansToBody(body: string)
    requires '`' !in body
    ensures CleanModelText("```json\n" + body + "\n```") == Trim(body)
  {
    var s := "```json\n" + body + "\n```";
    assert "```json" <= s;
    assert s[7..] == "\n" + (body + "\n```");
    assert StripAll(s, "```json") == StripAll(body + "\n```", "```json");
    StripAllPassThrough(body, "\n```", "```json");
    StripAllPassThrough("\n", "```", "```json");
    assert StripAll("```", "```json") == "```";
    assert "\n" + "```" == "\n```";
    var once := body + "\n```";
    assert StripAll(s, "```json") == once;
    StripAllPassThrough(body, "\n```", "```");
    StripAllPassThrough("\n", "```", "```");
    assert StripAll("```", "```") == "";
    assert StripAll(once, "```") == body + "\n";
    TrimBeforeTrailingWhitespace(body, '\n');
  }

  /** No "```" is left in the text handed to the parser. */
  lemma CleanedTextHasNoFence(text: string)
    ensures !Contains(CleanModelText(text), "```")
  {
    var x := StripAll(StripAll(text, "```json"), "```");
    StripAllLeavesNoFence(StripAll(text, "```json"));
    var k := TrimIsSlice(x);
    var r := Trim(x);
    forall i | 0 <= i <= |r|
      ensures !("```" <= r[i..])
    {
      assert r[i..] <= x[k + i..];
    }
  }
}
