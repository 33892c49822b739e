/**
 * The authenticity scanner view (src/components/MedicineScanner.tsx): its
 * four state fields, the handlers that move them, and the pure pieces of
 * the rendering (the status bucket and the `N/A` fallback).
 */
module MedicineScanner {
  import opened Wrappers
  import opened Types
  import JsString
  import Gemini

  const ScanFailedMessage: string := "Failed to analyze image"
  const NotAvailable: string := "N/A"

  /** The three visual treatments of the status banner. */
  datatype Bucket = Positive | Warning | Neutral

  /** The banner's colour and icon, chosen from the status string the AI returned. */
  function StatusBucket(status: string): (b: Bucket)
    ensures b == Positive <==> status == StatusText(LikelyAuthentic)
    ensures b == Warning <==> status == StatusText(Suspicious)
    ensures b == Neutral <==> status != StatusText(LikelyAuthentic) && status != StatusText(Suspicious)
  {
    if status == "Likely Authentic" then Positive
    else if status == "Suspicious" then Warning
    else Neutral
  }

  /** On the three declared statuses the buckets are distinct, one per status. */
  lemma BucketPerStatus(s: AuthenticityStatus)
    ensures StatusBucket(StatusText(s)) == match s
      case LikelyAuthentic => Positive
      case Suspicious => Warning
      case UnableToDetermine => Neutral
  {
  }

  /** `InfoItem`'s shown value: the field, or `N/A` when it is empty. Never blank. */
  function InfoItem(value: string): (shown: string)
    ensures shown != ""
    ensures value != "" ==> shown == value
    ensures value == "" ==> shown == NotAvailable
  {
    JsString.OrElse(value, NotAvailable)
  }

  datatype InfoRow = InfoRow(caption: string, shown: string)

  /** The rendered report: banner bucket, status and reason, then the five detail rows. */
  datatype Report = Report(bucket: Bucket, status: string, reason: string, details: seq<InfoRow>)

  /** The five fields shown as detail rows, in display order. */
  function DetailFields(info: MedicineInfo): seq<string>
  {
    [info.brandName, info.saltComposition, info.manufacturer, info.batchNumber, info.expiryDate]
  }

  function RenderReport(info: MedicineInfo): (rep: Report)
    ensures rep.bucket == StatusBucket(info.authenticityStatus)
    ensures rep.status == info.authenticityStatus && rep.reason == info.reason
    ensures |rep.details| == 5
    ensures forall i :: 0 <= i < |rep.details| ==> rep.details[i].shown == InfoItem(DetailFields(info)[i])
    ensures forall i :: 0 <= i < |rep.details| ==> rep.details[i].shown != ""
  {
    Report(StatusBucket(info.authenticityStatus), info.authenticityStatus, info.reason,
           [ InfoRow("Brand Name", InfoItem(info.brandName)),
             InfoRow("Salt Composition", InfoItem(info.saltComposition)),
             InfoRow("Manufacturer", InfoItem(info.manufacturer)),
             InfoRow("Batch Number", InfoItem(info.batchNumber)),
             InfoRow("Expiry Date", InfoItem(info.expiryDate)) ])
  }

  /** What the view shows for a given state. */
  datatype View = View(preview: Option<string>, analyzeButton: bool, spinner: bool,
                       errorBanner: Option<string>, report: Option<Report>)

  class Scanner {
    /** The captured image as a data URL. */
    var image: Option<string>
    var loading: bool
    var result: Option<MedicineInfo>
    var error: Option<string>

    constructor ()
      ensures image == None && !loading && result == None && error == None
    {
      image, loading, result, error := None, false, None, None;
    }

    /** `image` is truthy: set and non-empty. */
    predicate HasImage()
      reads this
    {
      JsString.Truthy(image)
    }

    /** `image && !result && !loading`. */
    predicate AnalyzeButtonShown()
      reads this
    {
      HasImage() && result.None? && !loading
    }

    /**
     * The view. The Analyze button is never shown beside the spinner or a
     * report, and an error banner always has text.
     */
    function Render(): (v: View)
      reads this
      ensures v.analyzeButton <==> HasImage() && result.None? && !loading
      ensures v.analyzeButton ==> !v.spinner && v.report.None?
      ensures v.spinner == loading
      ensures v.report.Some? <==> result.Some?
      ensures v.errorBanner.Some? ==> v.errorBanner.value != "" && error == v.errorBanner
      ensures v.preview.Some? <==> HasImage()
    {
      View(if HasImage() then image else None,
           AnalyzeButtonShown(),
           loading,
           if JsString.Truthy(error) then error else None,
           if result.Some? then Some(RenderReport(result.value)) else None)
    }

    /**
     * `handleImageUpload`: when no file is chosen nothing changes; otherwise
     * the reader's `onloadend` stores its result as the image (null after a
     * failed or aborted read) and clears the result and the error.
     */
    method HandleImageUpload(file: FileRead)
      modifies this
      ensures file.NoFile? ==> image == old(image) && result == old(result) && error == old(error)
      ensures file.Read? ==> image == Some(file.url) && result == None && error == None
      ensures file.ReadFailed? ==> image == None && result == None && error == None
      ensures loading == old(loading)
    {
      match file {
        case NoFile =>
        case Read(url) =>
          image := Some(url);
          result := None;
          error := None;
        case ReadFailed =>
          image := None;
          result := None;
          error := None;
      }
    }

    /** The overlay button on the preview: drops the image and the result, keeps the error. */
    method ClearImage()
      modifies this
      ensures image == None && result == None
      ensures error == old(error) && loading == old(loading)
    {
      image := None;
      result := None;
    }

    /** `handleScan` up to the request: nothing without an image, else loading and no error. */
    method BeginScan() returns (started: bool)
      modifies this
      ensures started == old(HasImage())
      ensures !started ==> image == old(image) && loading == old(loading) && error == old(error)
      ensures started ==> loading && error == None
      ensures image == old(image) && result == old(result)
    {
      if !HasImage() {
        return false;
      }
      loading := true;
      error := None;
      started := true;
    }

    /**
     * `handleScan` once the request settles: the returned value becomes the
     * result, or the error's message (or the fixed fallback when it has none)
     * becomes the error; loading ends either way.
     */
    method FinishScan(outcome: Result<MedicineInfo, string>)
      modifies this
      ensures !loading && image == old(image)
      ensures outcome.Success? ==> result == Some(outcome.value) && error == old(error)
      ensures outcome.Failure? ==> result == old(result) && error == Some(JsString.OrElse(outcome.error, ScanFailedMessage))
    {
      match outcome {
        case Success(data) => result := Some(data);
        case Failure(msg) => error := Some(JsString.OrElse(msg, ScanFailedMessage));
      }
      loading := false;
    }

    /**
     * The whole of `handleScan` against a provider. Returns the requests
     * sent: none without an image or without a key.
     */
    method HandleScan(apiKey: Option<string>, provider: Gemini.Request -> Gemini.Reply,
                      parse: string -> Option<MedicineInfo>) returns (sent: seq<Gemini.Request>)
      modifies this
      ensures !old(HasImage()) ==> sent == [] && image == old(image) && loading == old(loading)
                                   && result == old(result) && error == old(error)
      ensures old(HasImage()) ==>
                var ex := Gemini.AnalyzeImage(apiKey, old(image).value, MedicineScan, provider, parse);
                && sent == ex.sent && !loading && image == old(image)
                && (ex.outcome.Success? ==> result == Some(ex.outcome.value) && error == None)
                && (ex.outcome.Failure? ==> result == old(result) && error == Some(JsString.OrElse(ex.outcome.error, ScanFailedMessage)))
      ensures old(HasImage()) && !Gemini.KeyConfigured(apiKey) ==> sent == [] && error == Some(Gemini.MissingKeyMessage)
    {
      var started := BeginScan();
      if !started {
        return [];
      }
      var ex := Gemini.AnalyzeImage(apiKey, image.value, MedicineScan, provider, parse);
      sent := ex.sent;
      FinishScan(ex.outcome);
    }
  }
}
