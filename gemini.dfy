/**
 * The AI client (src/services/gemini.ts): the credential guard, the
 * connectivity probe, and how `analyzeImage` shapes its single request and
 * reads the reply. The provider is an oracle `Request -> Reply` and
 * `JSON.parse` an oracle `string -> Option<T>`; every operation returns the
 * requests it sent next to its outcome, so "nothing was sent" can be stated.
 */
module Gemini {
  import opened Wrappers
  import opened Types
  import JsString

  const MissingKeyMessage: string := "GEMINI_API_KEY is missing. Please configure it in the Secrets panel."
  const InvalidResponseMessage: string := "Invalid response from AI"
  const ImageMimeType: string := "image/jpeg"
  const JsonMimeType: string := "application/json"
  /** What an empty or absent response text is parsed as. */
  const EmptyObjectText: string := "{}"

  /** The three fixed prompt texts; their wording is not modelled. */
  datatype Prompt = ProbePrompt | ScanPrompt | PrescriptionPrompt

  /** The subset of the provider's schema language the two response schemas use. */
  datatype Schema =
    | StringSchema
    | ArraySchema(items: Schema)
    | ObjectSchema(properties: seq<Property>, required: seq<string>)

  datatype Property = Property(name: string, schema: Schema)

  datatype InlineData = InlineData(mimeType: string, data: string)

  /** What is handed to the provider: the probe, or one image analysis. */
  datatype Request =
    | ProbeRequest(contents: Prompt)
    | AnalysisRequest(prompt: Prompt, image: InlineData, responseMimeType: string, responseSchema: Schema)

  /** The provider's answer: a response whose text may be absent, or a thrown error. */
  datatype Reply = Answered(text: Option<string>) | Failed(message: string)

  /** An operation's outcome together with the requests it issued, in order. */
  datatype Exchange<T> = Exchange(sent: seq<Request>, outcome: T)

  datatype Client = Client(apiKey: string)

  /** The credential counts as configured only when it is set and non-empty. */
  predicate KeyConfigured(apiKey: Option<string>)
  {
    JsString.Truthy(apiKey)
  }

  /** `getGeminiClient`: throws on a missing key, else builds a client on that key. */
  function GetClient(apiKey: Option<string>): (r: Result<Client, string>)
    ensures r.Failure? <==> !KeyConfigured(apiKey)
    ensures r.Failure? ==> r.error == MissingKeyMessage
    ensures r.Success? ==> r.value.apiKey == apiKey.value && r.value.apiKey != ""
  {
    if !KeyConfigured(apiKey) then Failure(MissingKeyMessage) else Success(Client(apiKey.value))
  }

  /** `!!response.text`: a reply counts as alive when it carries non-empty text. */
  predicate HasText(reply: Reply)
  {
    reply.Answered? && JsString.Truthy(reply.text)
  }

  const Probe: Request := ProbeRequest(ProbePrompt)

  /**
   * `testConnection`: sends the probe only when a client can be built, and
   * reports true exactly when the provider answered with non-empty text;
   * the missing key and any provider error both become false.
   */
  function TestConnection(apiKey: Option<string>, provider: Request -> Reply): (r: Exchange<bool>)
    ensures r.sent == (if KeyConfigured(apiKey) then [Probe] else [])
    ensures r.outcome <==> KeyConfigured(apiKey) && HasText(provider(Probe))
  {
    match GetClient(apiKey)
    case Failure(_) => Exchange([], false)
    case Success(_) => Exchange([Probe], HasText(provider(Probe)))
  }

  /** The prompt for a mode: the scan prompt for MEDICINE_SCAN, else the prescription one. */
  function SelectPrompt(mode: AnalysisType): (p: Prompt)
    ensures p == ScanPrompt <==> mode == MedicineScan
    ensures p == PrescriptionPrompt <==> mode != MedicineScan
  {
    if mode == MedicineScan then ScanPrompt else PrescriptionPrompt
  }

  const ScanRequired: seq<string> :=
    ["brandName", "saltComposition", "manufacturer", "batchNumber", "expiryDate", "authenticityStatus", "reason"]

  const ScanSchema: Schema := ObjectSchema(
    [ Property("brandName", StringSchema),
      Property("saltComposition", StringSchema),
      Property("manufacturer", StringSchema),
      Property("batchNumber", StringSchema),
      Property("expiryDate", StringSchema),
      Property("authenticityStatus", StringSchema),
      Property("reason", StringSchema) ],
    ScanRequired)

  const MedicineItemRequired: seq<string> := ["name", "dosage", "frequency", "duration"]

  const MedicineItemSchema: Schema := ObjectSchema(
    [ Property("name", StringSchema),
      Property("dosage", StringSchema),
      Property("frequency", StringSchema),
      Property("duration", StringSchema),
      Property("uses", StringSchema),
      Property("sideEffects", StringSchema),
      Property("warnings", StringSchema) ],
    MedicineItemRequired)

  const PrescriptionRequired: seq<string> := ["rawText", "medicines"]

  const PrescriptionSchema: Schema := ObjectSchema(
    [ Property("rawText", StringSchema),
      Property("medicines", ArraySchema(MedicineItemSchema)) ],
    PrescriptionRequired)

  /** The schema for a mode: the scan schema for MEDICINE_SCAN, else the prescription one. */
  function SelectSchema(mode: AnalysisType): (s: Schema)
    ensures s == ScanSchema <==> mode == MedicineScan
    ensures s == PrescriptionSchema <==> mode != MedicineScan
  {
    if mode == MedicineScan then ScanSchema else PrescriptionSchema
  }

  function PropertyNames(ps: seq<Property>): (names: seq<string>)
    ensures |names| == |ps|
    ensures forall i :: 0 <= i < |ps| ==> names[i] == ps[i].name
  {
    if ps == [] then [] else [ps[0].name] + PropertyNames(ps[1..])
  }

  /** Names of the declared properties that are not required, in declaration order. */
  function OptionalNames(ps: seq<Property>, required: seq<string>): (names: seq<string>)
  {
    if ps == [] then []
    else (if ps[0].name in required then [] else [ps[0].name]) + OptionalNames(ps[1..], required)
  }

  /** No property of an object is declared twice. */
  predicate NamesDistinct(ps: seq<Property>)
  {
    forall i, j :: 0 <= i < j < |ps| ==> ps[i].name != ps[j].name
  }

  /** Every required name is a declared property. */
  predicate RequiredDeclared(ps: seq<Property>, required: seq<string>)
  {
    forall n :: n in required ==> n in PropertyNames(ps)
  }

  /**
   * A schema is well formed when every object's required names are among its
   * declared properties, no property is declared twice, and the same holds
   * of every nested schema.
   */
  predicate WellFormed(s: Schema)
  {
    match s
    case StringSchema => true
    case ArraySchema(items) => WellFormed(items)
    case ObjectSchema(ps, req) =>
      && RequiredDeclared(ps, req)
      && NamesDistinct(ps)
      && (forall i :: 0 <= i < |ps| ==> WellFormed(ps[i].schema))
  }

  /** The scan schema declares seven string fields and requires exactly those seven. */
  lemma ScanSchemaShape()
    ensures WellFormed(ScanSchema)
    ensures ScanSchema.required == PropertyNames(ScanSchema.properties)
    ensures |ScanSchema.required| == 7
    ensures forall i :: 0 <= i < |ScanSchema.properties| ==> ScanSchema.properties[i].schema == StringSchema
  {
    ScanNames();
    ScanNamesDistinct();
  }

  lemma ScanNames()
    ensures PropertyNames(ScanSchema.properties) == ScanRequired
  {
  }

  lemma ScanNamesDistinct()
    ensures NamesDistinct(ScanSchema.properties)
  {
  }

  /**
   * Each medicine item requires name, dosage, frequency and duration and
   * leaves exactly uses, sideEffects and warnings optional: the fields that
   * are optional in `PrescriptionMedicine`.
   */
  lemma MedicineItemSchemaShape()
    ensures MedicineItemSchema.required == ["name", "dosage", "frequency", "duration"]
    ensures OptionalNames(MedicineItemSchema.properties, MedicineItemSchema.required) == ["uses", "sideEffects", "warnings"]
  {
  }

  lemma MedicineItemWellFormed()
    ensures WellFormed(MedicineItemSchema)
  {
    MedicineItemNames();
    MedicineItemNamesDistinct();
  }

  lemma MedicineItemNames()
    ensures PropertyNames(MedicineItemSchema.properties) == MedicineItemRequired + ["uses", "sideEffects", "warnings"]
  {
  }

  lemma MedicineItemNamesDistinct()
    ensures NamesDistinct(MedicineItemSchema.properties)
  {
  }

  /** The prescription schema requires both of its fields, `rawText` and the `medicines` array. */
  lemma PrescriptionSchemaShape()
    ensures WellFormed(PrescriptionSchema)
    ensures PrescriptionSchema.required == PropertyNames(PrescriptionSchema.properties)
    ensures PrescriptionSchema.properties[1].schema == ArraySchema(MedicineItemSchema)
  {
    MedicineItemWellFormed();
  }

  /**
   * `base64Image.split(",")[1] || base64Image`: the second comma-separated
   * segment when there is one and it is non-empty, otherwise the whole
   * input. So the result is either the input or a non-empty comma-free
   * piece of it.
   */
  function StripDataUrlPrefix(image: string): (data: string)
    ensures ',' !in image ==> data == image
    ensures data == image || (data != "" && ',' !in data)
  {
    JsString.CountZero(image, ',');
    var parts := JsString.Split(image, ',');
    if |parts| > 1 && parts[1] != "" then parts[1] else image
  }

  /** A data URL `header,payload` with a comma-free non-empty payload yields the payload. */
  lemma StripDataUrl(header: string, payload: string)
    requires ',' !in header && ',' !in payload
    ensures StripDataUrlPrefix(header + "," + payload) == if payload != "" then payload else header + "," + payload
  {
    JsString.SplitAfterHead(header, ',', payload);
    JsString.SplitWithoutSeparator(payload, ',');
  }

  /**
   * In general the result is the segment between the first and the second
   * comma (or the end), unless that segment is empty, in which case the
   * whole input is kept.
   */
  lemma StripSecondSegment(header: string, segment: string, tail: string)
    requires ',' !in header && ',' !in segment
    ensures StripDataUrlPrefix(header + "," + segment + "," + tail) ==
            if segment != "" then segment else header + "," + segment + "," + tail
  {
    var s := header + "," + segment + "," + tail;
    assert s == header + [','] + (segment + [','] + tail);
    JsString.SplitAfterHead(header, ',', segment + [','] + tail);
    JsString.SplitAfterHead(segment, ',', tail);
  }

  /** The single request `analyzeImage` sends for an image and a mode. */
  function BuildRequest(image: string, mode: AnalysisType): (req: Request)
    ensures req.AnalysisRequest?
    ensures req.image.mimeType == ImageMimeType && req.responseMimeType == JsonMimeType
    ensures req.prompt == SelectPrompt(mode) && req.responseSchema == SelectSchema(mode)
    ensures req.image.data == StripDataUrlPrefix(image)
  {
    AnalysisRequest(SelectPrompt(mode), InlineData(ImageMimeType, StripDataUrlPrefix(image)), JsonMimeType, SelectSchema(mode))
  }

  /** `response.text || "{}"`: the text that is actually parsed. */
  function ResponseBody(text: Option<string>): (body: string)
    ensures body != ""
    ensures JsString.Truthy(text) ==> body == text.value
    ensures !JsString.Truthy(text) ==> body == EmptyObjectText
  {
    JsString.OptOrElse(text, EmptyObjectText)
  }

  /**
   * `analyzeImage`: without a key it throws before sending anything; with a
   * key it sends exactly one request, lets a provider error through, parses
   * the (defaulted) response text, and turns a parse failure into
   * "Invalid response from AI".
   */
  function AnalyzeImage<T>(apiKey: Option<string>, image: string, mode: AnalysisType,
                           provider: Request -> Reply, parse: string -> Option<T>): (r: Exchange<Result<T, string>>)
    ensures !KeyConfigured(apiKey) ==> r.sent == [] && r.outcome == Failure(MissingKeyMessage)
    ensures KeyConfigured(apiKey) ==> r.sent == [BuildRequest(image, mode)]
    ensures KeyConfigured(apiKey) && provider(BuildRequest(image, mode)).Failed? ==>
              r.outcome == Failure(provider(BuildRequest(image, mode)).message)
    ensures KeyConfigured(apiKey) && provider(BuildRequest(image, mode)).Answered? ==>
              var parsed := parse(ResponseBody(provider(BuildRequest(image, mode)).text));
              r.outcome == if parsed.Some? then Success(parsed.value) else Failure(InvalidResponseMessage)
  {
    match GetClient(apiKey)
    case Failure(e) => Exchange([], Failure(e))
    case Success(_) =>
      var req := BuildRequest(image, mode);
      match provider(req)
      case Failed(msg) => Exchange([req], Failure(msg))
      case Answered(text) =>
        match parse(ResponseBody(text))
        case None => Exchange([req], Failure(InvalidResponseMessage))
        case Some(v) => Exchange([req], Success(v))
  }

  /** Every request either operation sends declares JPEG image data and asks for JSON. */
  lemma RequestsAreWellShaped<T>(apiKey: Option<string>, image: string, mode: AnalysisType,
                                 provider: Request -> Reply, parse: string -> Option<T>)
    ensures |AnalyzeImage(apiKey, image, mode, provider, parse).sent| <= 1
    ensures forall q :: q in AnalyzeImage(apiKey, image, mode, provider, parse).sent ==>
              q.AnalysisRequest? && q.image.mimeType == "image/jpeg" && q.responseMimeType == "application/json"
    ensures forall q :: q in TestConnection(apiKey, provider).sent ==> q == Probe
  {
  }

  /** An absent or empty response text behaves exactly like the text "{}". */
  lemma EmptyTextIsEmptyObject<T>(apiKey: Option<string>, image: string, mode: AnalysisType,
                                  p: Request -> Reply, q: Request -> Reply, parse: string -> Option<T>)
    requires p(BuildRequest(image, mode)) in {Answered(None), Answered(Some(""))}
    requires q(BuildRequest(image, mode)) == Answered(Some(EmptyObjectText))
    ensures AnalyzeImage(apiKey, image, mode, p, parse) == AnalyzeImage(apiKey, image, mode, q, parse)
  {
  }

  /** Without a key neither operation contacts the provider, whatever it would say. */
  lemma MissingKeySendsNothing<T>(apiKey: Option<string>, image: string, mode: AnalysisType,
                                  provider: Request -> Reply, parse: string -> Option<T>)
    requires apiKey == None || apiKey == Some("")
    ensures AnalyzeImage(apiKey, image, mode, provider, parse) == Exchange([], Failure(MissingKeyMessage))
    ensures TestConnection(apiKey, provider) == Exchange([], false)
  {
  }
}
