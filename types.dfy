/** The shared enumerations and records of the application (src/types.ts). */
module Types {
  import opened Wrappers

  /** The two analysis modes; each selects its own prompt and response schema. */
  datatype AnalysisType = MedicineScan | PrescriptionRead

  /** The three literals the declared type of `authenticityStatus` admits. */
  datatype AuthenticityStatus = LikelyAuthentic | Suspicious | UnableToDetermine

  function StatusText(s: AuthenticityStatus): string
  {
    match s
    case LikelyAuthentic => "Likely Authentic"
    case Suspicious => "Suspicious"
    case UnableToDetermine => "Unable to Determine"
  }

  /**
   * The result of a medicine scan. `authenticityStatus` is any string: the
   * response schema only declares it a STRING and nothing checks it against
   * the three literals above.
   */
  datatype MedicineInfo = MedicineInfo(
    brandName: string,
    saltComposition: string,
    manufacturer: string,
    batchNumber: string,
    expiryDate: string,
    authenticityStatus: string,
    reason: string)

  /** One medicine in a transcribed prescription; the last three fields are optional. */
  datatype PrescriptionMedicine = PrescriptionMedicine(
    name: string,
    dosage: string,
    frequency: string,
    duration: string,
    uses: Option<string>,
    sideEffects: Option<string>,
    warnings: Option<string>)

  datatype PrescriptionInfo = PrescriptionInfo(medicines: seq<PrescriptionMedicine>, rawText: string)

  /** A dosage reminder; all six fields are required. */
  datatype Reminder = Reminder(
    id: string,
    medicineName: string,
    dosage: string,
    time: string,
    frequency: string,
    active: bool)

  /**
   * What the image-upload handlers of both views receive: no file chosen, or
   * the outcome of reading the chosen file as a data URL. A read that fails or
   * is aborted still ends, with no result.
   */
  datatype FileRead = NoFile | Read(url: string) | ReadFailed
}
