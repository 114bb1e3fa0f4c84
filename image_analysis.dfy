/**
 * What the home page and the scanner page share: the outcome of posting
 * the chosen image to the analysis route, the scan record saved for a
 * signed-in user, and the `scans` collection it is saved to.
 */
module ImageAnalysis {
  import opened Wrappers
  import opened Text

  /** The fields of the route's `data` the pages read; the nutrition table maps each key to its number. */
  datatype AnalysisData = AnalysisData(name: Option<string>, brand: Option<string>,
                                       nutrition: Option<map<string, real>>,
                                       nutriScore: Option<string>, ecoScore: Option<string>)

  /** A thrown value: an `Error` always has a string message; anything else may lack one. */
  datatype Thrown = ErrorObject(text: string) | OtherValue(message: Option<string>)

  /** `err.message`. */
  function Message(t: Thrown): Option<string> {
    match t
    case ErrorObject(m) => Some(m)
    case OtherValue(m) => m
  }

  /**
   * The posted request: an OK reply with its `data` (possibly absent), a
   * non-OK reply with its `error` field (possibly absent), or a throw
   * (network failure, unreadable reply).
   */
  datatype AnalyzeOutcome = Ok(data: Option<AnalysisData>) | NotOk(errorField: Option<string>) | Threw(thrown: Thrown)

  const AnalyzeFailed := "Failed to analyze image"

  /** What the `catch` block receives for a failed outcome. */
  function ThrownBy(o: AnalyzeOutcome): (t: Thrown)
    requires !o.Ok?
    ensures o.NotOk? ==> t.ErrorObject? && Truthy(Message(t))
    ensures o.NotOk? && Truthy(o.errorField) ==> t == ErrorObject(o.errorField.value)
    ensures o.NotOk? && !Truthy(o.errorField) ==> t == ErrorObject(AnalyzeFailed)
    ensures o.Threw? ==> t == o.thrown
  {
    match o
    case NotOk(e) => ErrorObject(OrElse(e, AnalyzeFailed))
    case Threw(t) => t
  }

  const DefaultError := "Failed to analyze image. Please try again."
  const NoImageError := "Please select or capture an image first"

  /** `err.message || 'Failed to analyze image. Please try again.'`: never empty. */
  function ErrorText(t: Thrown): (m: string)
    ensures m != ""
    ensures Truthy(Message(t)) ==> m == Message(t).value
    ensures !Truthy(Message(t)) ==> m == DefaultError
  {
    OrElse(Message(t), DefaultError)
  }

  /** The document added to `scans`. */
  datatype ScanRecord = ScanRecord(userId: string, productName: Option<string>, brand: Option<string>,
                                   nutrition: Option<map<string, real>>, nutriScore: Option<string>, ecoScore: Option<string>, imageUrl: Option<string>)

  /** The `scans` collection. */
  class ScanLog {
    var scans: seq<ScanRecord>

    constructor ()
      ensures scans == []
    {
      scans := [];
    }
  }

  /**
   * The scan saved after a successful analysis: only with a signed-in user,
   * a configured database and data to read (reading fields of absent data
   * throws inside the swallowed `try`), and only if the write succeeds.
   */
  function SavedScans(user: Option<string>, dbAvailable: bool, data: Option<AnalysisData>,
                      preview: Option<string>, writeSucceeds: bool): (r: seq<ScanRecord>)
    ensures |r| <= 1
    ensures r != [] <==> user.Some? && dbAvailable && data.Some? && writeSucceeds
    ensures r != [] ==>
      (r[0].userId == user.value && r[0].imageUrl == preview
       && r[0].productName == data.value.name && r[0].brand == data.value.brand
       && r[0].nutrition == data.value.nutrition
       && r[0].nutriScore == data.value.nutriScore && r[0].ecoScore == data.value.ecoScore)
  {
    if user.Some? && dbAvailable && data.Some? && writeSucceeds then
      var d := data.value;
      [ScanRecord(user.value, d.name, d.brand, d.nutrition, d.nutriScore, d.ecoScore, preview)]
    else []
  }
}
