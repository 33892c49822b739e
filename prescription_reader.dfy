/**
 * The prescription reader view (src/components/PrescriptionReader.tsx): the
 * same four state fields as the scanner, its handlers, and the rendering of
 * the transcript as one card per medicine plus the raw text.
 */
module PrescriptionReader {
  import opened Wrappers
  import opened Types
  import JsString
  import Gemini

  const ReadFailedMessage: string := "Failed to read prescription"
  const NoInformation: string := "Information not available"

  /** `MedDetail`'s content: the text when present and non-empty, else the fallback. */
  function MedDetail(content: Option<string>): (shown: string)
    ensures shown != ""
    ensures JsString.Truthy(content) ==> shown == content.value
    ensures !JsString.Truthy(content) ==> shown == NoInformation
  {
    JsString.OptOrElse(content, NoInformation)
  }

  /** One medicine's card: the required fields verbatim, the optional ones through `MedDetail`. */
  datatype MedicineCard = MedicineCard(name: string, dosage: string, frequency: string, duration: string,
                                       uses: string, sideEffects: string, warnings: string)

  function Card(m: PrescriptionMedicine): (c: MedicineCard)
    ensures c.name == m.name && c.dosage == m.dosage && c.frequency == m.frequency && c.duration == m.duration
    ensures c.uses == MedDetail(m.uses) && c.sideEffects == MedDetail(m.sideEffects) && c.warnings == MedDetail(m.warnings)
    ensures c.uses != "" && c.sideEffects != "" && c.warnings != ""
  {
    MedicineCard(m.name, m.dosage, m.frequency, m.duration,
                 MedDetail(m.uses), MedDetail(m.sideEffects), MedDetail(m.warnings))
  }

  /** `result.medicines.map(...)`: one card per medicine, in the same order. */
  function Cards(meds: seq<PrescriptionMedicine>): (cards: seq<MedicineCard>)
    ensures |cards| == |meds|
    ensures forall i :: 0 <= i < |meds| ==> cards[i] == Card(meds[i])
  {
    if meds == [] then [] else [Card(meds[0])] + Cards(meds[1..])
  }

  /** Cards of a concatenation are the concatenation of the cards. */
  lemma CardsAppend(a: seq<PrescriptionMedicine>, b: seq<PrescriptionMedicine>)
    ensures Cards(a + b) == Cards(a) + Cards(b)
  {
  }

  /** The rendered transcript: the medicine cards, then the raw transcription. */
  datatype Transcript = Transcript(cards: seq<MedicineCard>, rawText: string)

  function RenderTranscript(info: PrescriptionInfo): (t: Transcript)
    ensures t.rawText == info.rawText
    ensures |t.cards| == |info.medicines|
    ensures info.medicines == [] ==> t.cards == []
    ensures forall i :: 0 <= i < |info.medicines| ==> t.cards[i].name == info.medicines[i].name
  {
    Transcript(Cards(info.medicines), info.rawText)
  }

  /** What the view shows for a given state. */
  datatype View = View(preview: Option<string>, extractButton: bool, spinner: bool,
                       errorBanner: Option<string>, transcript: Option<Transcript>)

  class Reader {
    /** The captured image as a data URL. */
    var image: Option<string>
    var loading: bool
    var result: Option<PrescriptionInfo>
    var error: Option<string>

    constructor ()
      ensures image == None && !loading && result == None && error == None
    {
      image, loading, result, error := None, false, None, None;
    }

    /** `image` is truthy: set and non-empty. */
    predicate HasImage()
      reads this
    {
      JsString.Truthy(image)
    }

    /** `image && !result && !loading`. */
    predicate ExtractButtonShown()
      reads this
    {
      HasImage() && result.None? && !loading
    }

    /**
     * The view. The Extract button is never shown beside the spinner or a
     * transcript, and an error banner always has text.
     */
    function Render(): (v: View)
      reads this
      ensures v.extractButton <==> HasImage() && result.None? && !loading
      ensures v.extractButton ==> !v.spinner && v.transcript.None?
      ensures v.spinner == loading
      ensures v.transcript.Some? <==> result.Some?
      ensures v.transcript.Some? ==> v.transcript.value.rawText == result.value.rawText
      ensures v.errorBanner.Some? ==> v.errorBanner.value != "" && error == v.errorBanner
      ensures v.preview.Some? <==> HasImage()
    {
      View(if HasImage() then image else None,
           ExtractButtonShown(),
           loading,
           if JsString.Truthy(error) then error else None,
           if result.Some? then Some(RenderTranscript(result.value)) else None)
    }

    /**
     * `handleImageUpload`: when no file is chosen nothing changes; otherwise
     * the reader's `onloadend` stores its result as the image (null after a
     * failed or aborted read) and clears the result and the error.
     */
    method HandleImageUpload(file: FileRead)
      modifies this
      ensures file.NoFile? ==> image == old(image) && result == old(result) && error == old(error)
      ensures file.Read? ==> image == Some(file.url) && result == None && error == None
      ensures file.ReadFailed? ==> image == None && result == None && error == None
      ensures loading == old(loading)
    {
      match file {
        case NoFile =>
        case Read(url) =>
          image := Some(url);
          result := None;
          error := None;
        case ReadFailed =>
          image := None;
          result := None;
          error := None;
      }
    }

    /** The overlay button on the preview: drops the image and the result, keeps the error. */
    method ClearImage()
      modifies this
      ensures image == None && result == None
      ensures error == old(error) && loading == old(loading)
    {
      image := None;
      result := None;
    }

    /** `handleRead` up to the request: nothing without an image, else loading and no error. */
    method BeginRead() returns (started: bool)
      modifies this
      ensures started == old(HasImage())
      ensures !started ==> image == old(image) && loading == old(loading) && error == old(error)
      ensures started ==> loading && error == None
      ensures image == old(image) && result == old(result)
    {
      if !HasImage() {
        return false;
      }
      loading := true;
      error := None;
      started := true;
    }

    /**
     * `handleRead` once the request settles: the returned value becomes the
     * result, or the error's message (or the fixed fallback when it has none)
     * becomes the error; loading ends either way.
     */
    method FinishRead(outcome: Result<PrescriptionInfo, string>)
      modifies this
      ensures !loading && image == old(image)
      ensures outcome.Success? ==> result == Some(outcome.value) && error == old(error)
      ensures outcome.Failure? ==> result == old(result) && error == Some(JsString.OrElse(outcome.error, ReadFailedMessage))
    {
      match outcome {
        case Success(data) => result := Some(data);
        case Failure(msg) => error := Some(JsString.OrElse(msg, ReadFailedMessage));
      }
      loading := false;
    }

    /**
     * The whole of `handleRead` against a provider. Returns the requests
     * sent: none without an image or without a key.
     */
    method HandleRead(apiKey: Option<string>, provider: Gemini.Request -> Gemini.Reply,
                      parse: string -> Option<PrescriptionInfo>) returns (sent: seq<Gemini.Request>)
      modifies this
      ensures !old(HasImage()) ==> sent == [] && image == old(image) && loading == old(loading)
                                   && result == old(result) && error == old(error)
      ensures old(HasImage()) ==>
                var ex := Gemini.AnalyzeImage(apiKey, old(image).value, PrescriptionRead, provider, parse);
                && sent == ex.sent && !loading && image == old(image)
                && (ex.outcome.Success? ==> result == Some(ex.outcome.value) && error == None)
                && (ex.outcome.Failure? ==> result == old(result) && error == Some(JsString.OrElse(ex.outcome.error, ReadFailedMessage)))
      ensures old(HasImage()) && !Gemini.KeyConfigured(apiKey) ==> sent == [] && error == Some(Gemini.MissingKeyMessage)
    {
      var started := BeginRead();
      if !started {
        return [];
      }
      var ex := Gemini.AnalyzeImage(apiKey, image.value, PrescriptionRead, provider, parse);
      sent := ex.sent;
      FinishRead(ex.outcome);
    }
  }
}
