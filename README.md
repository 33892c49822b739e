# Medicine assistant core, modelled in Dafny

The application is a browser client. A user photographs a medicine package to get an authenticity report, or photographs a handwritten prescription to get a list of medicines. Both kinds of image go to an external multimodal AI service. The user can also keep dosage reminders in browser local storage. This project models the deterministic logic around those features and proves properties of it:

- **Reminders.** The reminder list (`ReminderSystem`) is a class. It holds the in-memory list, the local-storage slot that mirrors it, the add-form draft and the form's visibility. Its methods follow the component's handlers. The new lists are built by pure functions: append, filter by id, and toggle by id.
- **AI client.** The client (`Gemini`) contains the credential guard and the connectivity probe. It also picks the prompt and response schema for each mode, strips the data-URL prefix from the image, and handles the empty-reply and parse-failure cases. The AI provider is an oracle `Request -> Reply` and `JSON.parse` is an oracle `string -> Option<T>`. Each operation returns the requests it sent along with its outcome, so "nothing was sent" can be stated and proved.
- **Result views.** The two views (`MedicineScanner`, `PrescriptionReader`) are classes over their `image`/`loading`/`result`/`error` fields. Each async handler is split at its `await`: a Begin method runs up to the request, a Finish method runs once it settles, and a combined Handle method runs both. The pure parts of rendering cover the authenticity bucket, the `'N/A'` and `'Information not available'` fallbacks, and one card per medicine.
- **Shared helpers.** `Types` holds the shared enums and records. `JsString` models the two pieces of JavaScript string behaviour the code depends on: `||` on strings and `split`.

## Reminder ids and loading

- Reminder ids are meant to identify one entry each. The code builds them from `Date.now()`, so two adds in the same millisecond get the same id. The model therefore does not assume that ids are unique: `WithoutId` and `Toggled` act on every entry with a matching id. Uniqueness appears only as a hypothesis. `AddKeepsIdsUnique` shows that adding under an unused id keeps ids unique, and `DeleteRemovesOne` shows that with unique ids a delete removes exactly one entry.
- When nothing usable is stored, the list mounts empty and stays empty: `Load` leaves the list as it was, which on mount is the empty list.

## Model

| member | source | states |
|---|---|---|
| `JsString.Split` | src/services/gemini.ts:120 | `split` returns one more segment than there are separators, and no segment contains the separator |
| `JsString.JoinSplit` | src/services/gemini.ts:120 | joining the segments with the separator gives back the original string |
| `JsString.SplitWithoutSeparator` | src/services/gemini.ts:120 | a string without the separator splits into just itself |
| `JsString.SplitAfterHead` | src/services/gemini.ts:120 | a separator-free head followed by the separator becomes the first segment |
| `Gemini.GetClient` | src/services/gemini.ts:6-12 | fails with the fixed message exactly when the key is absent or empty (`KeyConfigured`, built on `JsString.Truthy`); otherwise builds a client on that key |
| `Gemini.TestConnection` | src/services/gemini.ts:14-26 | sends the probe only when the key is configured; returns true iff the key is configured and the provider answered with non-empty text (`HasText`); a missing key and a provider error both give false |
| `Gemini.SelectPrompt` | src/services/gemini.ts:69-71 | MEDICINE_SCAN selects the scan prompt; the other mode selects the prescription prompt |
| `Gemini.SelectSchema` | src/services/gemini.ts:73-109 | MEDICINE_SCAN selects the scan schema; the other mode selects the prescription schema |
| `Gemini.PropertyNames` | src/services/gemini.ts:75-84 | the names of a schema's declared properties, in declaration order |
| `Gemini.ScanSchemaShape` | src/services/gemini.ts:73-85 | the scan schema is well formed, declares seven string fields and requires exactly those seven |
| `Gemini.ScanNames` | src/services/gemini.ts:75-85 | the scan schema declares its properties in the same order as its required list |
| `Gemini.MedicineItemNames` | src/services/gemini.ts:93-104 | the item schema declares the four required fields followed by uses, sideEffects and warnings |
| `Gemini.MedicineItemSchemaShape` | src/services/gemini.ts:92-104 | each medicine item requires name, dosage, frequency and duration; the only optional fields are uses, sideEffects and warnings |
| `Gemini.MedicineItemWellFormed` | src/services/gemini.ts:92-104 | the item schema requires only declared fields and declares no field twice |
| `Gemini.PrescriptionSchemaShape` | src/services/gemini.ts:87-108 | the prescription schema is well formed, requires both `rawText` and `medicines`, and `medicines` is an array of items |
| `Gemini.StripDataUrlPrefix` | src/services/gemini.ts:120 | a string with no comma passes through unchanged; any other result is a non-empty, comma-free segment |
| `Gemini.StripDataUrl` | src/services/gemini.ts:120 | a data URL `header,payload` with comma-free header and payload yields the payload when it is non-empty, and the whole input when it is empty |
| `Gemini.StripSecondSegment` | src/services/gemini.ts:120 | for an input with at least two commas, the result is the segment between the first and second commas when that segment is non-empty, and otherwise the whole input |
| `Gemini.BuildRequest` | src/services/gemini.ts:111-130 | the analysis request carries the mode's prompt and schema, the stripped image data, the JPEG image type and the JSON response type |
| `Gemini.ResponseBody` | src/services/gemini.ts:133 | the parsed text is the response text when that text is present and non-empty (`JsString.Truthy`, via `JsString.OptOrElse`), and `"{}"` otherwise |
| `Gemini.AnalyzeImage` | src/services/gemini.ts:63-138 | without a key: fails with the missing-key message and sends nothing; with a key: sends exactly one request; a provider error passes through; a parse failure becomes "Invalid response from AI"; otherwise returns the parsed value |
| `Gemini.RequestsAreWellShaped` | src/services/gemini.ts:114-128 | an analysis sends at most one request, always with image/jpeg and application/json; the probe sends only the probe request |
| `Gemini.EmptyTextIsEmptyObject` | src/services/gemini.ts:132-137 | an absent or empty response text leads to the same exchange as the text `"{}"` |
| `Gemini.MissingKeySendsNothing` | src/services/gemini.ts:6-17 | with the key absent or empty, analysis fails with the missing-key message and the probe returns false, and neither sends a request |
| `ReminderSystem.NewReminder` | src/components/ReminderSystem.tsx:35-42 | the new entry is always active; name and time are copied verbatim; dosage and frequency are copied when non-empty and otherwise default to "1 dose" and "Daily" (`JsString.OrElse`) |
| `ReminderSystem.Flip` | src/components/ReminderSystem.tsx:54 | the flipped entry has the opposite `active` flag and equals the original in every other field |
| `ReminderSystem.Ids` | src/components/ReminderSystem.tsx:50 | the entries' ids, position by position |
| `ReminderSystem.WithoutId` | src/components/ReminderSystem.tsx:50 | the filtered list contains exactly the entries whose id differs, and is no longer than the original |
| `ReminderSystem.Toggled` | src/components/ReminderSystem.tsx:54 | length is preserved; every entry whose id matches has `active` flipped (all of them if ids collide); every other entry is unchanged |
| `ReminderSystem.WithoutIdAppend` | src/components/ReminderSystem.tsx:50 | filtering distributes over concatenation, so surviving entries keep their original order |
| `ReminderSystem.WithoutAbsentId` | src/components/ReminderSystem.tsx:50 | deleting an absent id leaves the list unchanged |
| `ReminderSystem.DeleteIdempotent` | src/components/ReminderSystem.tsx:50 | deleting twice has the same effect as deleting once |
| `ReminderSystem.DeleteRemovesOne` | src/components/ReminderSystem.tsx:50 | when ids are unique, deleting a present id shortens the list by exactly one |
| `ReminderSystem.ToggleKeepsIds` | src/components/ReminderSystem.tsx:54 | toggling keeps every id in its position |
| `ReminderSystem.ToggleTwice` | src/components/ReminderSystem.tsx:54 | toggling the same id twice is the identity |
| `ReminderSystem.ToggleAbsentId` | src/components/ReminderSystem.tsx:54 | toggling an absent id leaves the list unchanged |
| `ReminderSystem.DeleteAfterToggle` | src/components/ReminderSystem.tsx:49-55 | deleting an id after toggling it gives the same list as deleting it directly |
| `ReminderSystem.AddKeepsIdsUnique` | src/components/ReminderSystem.tsx:35-44 | appending under an id not already in use keeps ids unique |
| `ReminderSystem.ReminderStore.constructor` | src/components/ReminderSystem.tsx:6-14 | on mount: an empty list, the draft blank with frequency "Daily" and active true, and the form hidden |
| `ReminderSystem.ReminderStore.Saved` | src/components/ReminderSystem.tsx:17 | reading the key yields the stored list exactly when something is stored under it |
| `ReminderSystem.ReminderStore.Load` | src/components/ReminderSystem.tsx:16-25 | with nothing stored, or with a parse failure, the list stays as it was and no error is raised; otherwise the list becomes the parsed value; storage is not written |
| `ReminderSystem.ReminderStore.Save` | src/components/ReminderSystem.tsx:27-30 | the list is replaced, the whole stored copy under `med_reminders` is rewritten to match (the invariant `Persisted`: the stored copy is the list), and no other key changes |
| `ReminderSystem.ReminderStore.Add` | src/components/ReminderSystem.tsx:32-47 | with an empty name or time (`CanAdd` fails) nothing changes; otherwise the list becomes old list + [new entry], the copy is persisted, the draft is reset and the form is hidden |
| `ReminderSystem.ReminderStore.Delete` | src/components/ReminderSystem.tsx:49-51 | the list becomes the filtered list and is persisted; the draft and the form are untouched |
| `ReminderSystem.ReminderStore.Toggle` | src/components/ReminderSystem.tsx:53-55 | the list becomes the toggled list and is persisted; the draft and the form are untouched |
| `ReminderSystem.ReminderStore.EditDraft` | src/components/ReminderSystem.tsx:80 | a form edit changes only the draft |
| `ReminderSystem.ReminderStore.ToggleForm` | src/components/ReminderSystem.tsx:65 | the plus button inverts the form's visibility |
| `ReminderSystem.Reload` | src/components/ReminderSystem.tsx:16-30 | after any persisting mutation, a new store loaded from the same storage (with parsing succeeding) holds the same list, field for field and in order |
| `MedicineScanner.StatusBucket` | src/components/MedicineScanner.tsx:109-117 | total over all strings: 'Likely Authentic' (`Types.StatusText` of each literal) is positive, 'Suspicious' is a warning, and every other string is neutral |
| `MedicineScanner.BucketPerStatus` | src/components/MedicineScanner.tsx:109-117 | each of the three declared statuses gets its own bucket, with 'Unable to Determine' neutral |
| `MedicineScanner.InfoItem` | src/components/MedicineScanner.tsx:141 | shows the value when it is non-empty, and 'N/A' otherwise (`JsString.OrElse`); never blank |
| `MedicineScanner.RenderReport` | src/components/MedicineScanner.tsx:107-131 | the banner uses the status bucket and shows the status and reason verbatim; five detail rows, row i showing field i of `DetailFields` (brand, salt, manufacturer, batch, expiry, in rendered order) through `InfoItem` |
| `MedicineScanner.Scanner.constructor` | src/components/MedicineScanner.tsx:13-16 | starts with no image, not loading, no result and no error |
| `MedicineScanner.Scanner.Render` | src/components/MedicineScanner.tsx:56-107 | the Analyze button is shown (`AnalyzeButtonShown`) iff there is a non-empty image (`HasImage`), no result and no loading; it never appears beside the spinner or a report; the error banner is never blank |
| `MedicineScanner.Scanner.HandleImageUpload` | src/components/MedicineScanner.tsx:19-30 | with no file nothing changes; a successful read sets the image to the data URL, and a failed or aborted read sets it to none; both clear result and error |
| `MedicineScanner.Scanner.ClearImage` | src/components/MedicineScanner.tsx:60 | clears image and result, and leaves the error alone |
| `MedicineScanner.Scanner.BeginScan` | src/components/MedicineScanner.tsx:32-35 | without a non-empty image (`HasImage`) it does nothing; otherwise it sets loading and clears the error before the request |
| `MedicineScanner.Scanner.FinishScan` | src/components/MedicineScanner.tsx:36-43 | on success the result is the returned value; on failure the error is the message, or "Failed to analyze image" when the message is empty; loading is false afterwards |
| `MedicineScanner.Scanner.HandleScan` | src/components/MedicineScanner.tsx:32-44 | without an image: no state change and no request; otherwise the state after the analysis exchange; a missing key yields its error and sends nothing |
| `PrescriptionReader.MedDetail` | src/components/PrescriptionReader.tsx:145 | shows the content when it is present and non-empty (`JsString.Truthy`, via `JsString.OptOrElse`), and 'Information not available' otherwise |
| `PrescriptionReader.Card` | src/components/PrescriptionReader.tsx:107-120 | a card shows the required fields verbatim and each optional field through `MedDetail` |
| `PrescriptionReader.Cards` | src/components/PrescriptionReader.tsx:106-121 | one card per medicine, card i for medicine i |
| `PrescriptionReader.CardsAppend` | src/components/PrescriptionReader.tsx:106 | the cards follow the sequence order of the medicines |
| `PrescriptionReader.RenderTranscript` | src/components/PrescriptionReader.tsx:101-135 | the raw text is displayed unchanged; there are as many cards as medicines, so an empty list gives zero cards |
| `PrescriptionReader.Reader.constructor` | src/components/PrescriptionReader.tsx:8-11 | starts with no image, not loading, no result and no error |
| `PrescriptionReader.Reader.Render` | src/components/PrescriptionReader.tsx:51-135 | the Extract button is shown (`ExtractButtonShown`) iff there is a non-empty image (`HasImage`), no result and no loading; it never appears beside the spinner or a transcript; the transcript's raw text is the result's |
| `PrescriptionReader.Reader.HandleImageUpload` | src/components/PrescriptionReader.tsx:14-25 | with no file nothing changes; a successful read sets the image to the data URL, and a failed or aborted read sets it to none; both clear result and error |
| `PrescriptionReader.Reader.ClearImage` | src/components/PrescriptionReader.tsx:55 | clears image and result, and leaves the error alone |
| `PrescriptionReader.Reader.BeginRead` | src/components/PrescriptionReader.tsx:27-30 | without a non-empty image (`HasImage`) it does nothing; otherwise it sets loading and clears the error before the request |
| `PrescriptionReader.Reader.FinishRead` | src/components/PrescriptionReader.tsx:31-38 | on success the result is the returned value; on failure the error is the message, or "Failed to read prescription" when the message is empty; loading is false afterwards |
| `PrescriptionReader.Reader.HandleRead` | src/components/PrescriptionReader.tsx:27-39 | without an image: no state change and no request; otherwise the state after the analysis exchange; a missing key yields its error and sends nothing |

## Left out

- The AI provider call (`generateContent`), the network, the model name and the prompt wording are foreign calls. The provider is an oracle parameter, and prompts are the three constructors of `Prompt`.
- `JSON.parse` and `JSON.stringify` are library behaviour. Parsing is an oracle or an `Option` input, and storage holds the reminder list itself. A malformed stored text is the `None` input of `Load`. So is an empty stored string, which `JSON.parse` would reject anyway. A stored text that parses to something other than a list is not modelled.
- Neither the code nor the model checks a parsed reply against the declared schema.
- `Gemini.AnalyzeImage`: the parse oracle yields a whole record or nothing. So the model cannot express what `JSON.parse` yields for a reply that parses but does not match the schema. One case is a partial object, such as `{}` with missing fields. Another is `null` from the reply text `"null"`, which `FinishScan`/`FinishRead` store as a null result with no error.
- `Gemini.AnalyzeImage`: the reader's rendering of a result without `medicines` throws (src/components/PrescriptionReader.tsx:106). That crash follows from the partial records above and is not modelled.
- `Gemini.EmptyTextIsEmptyObject`: it proves that an empty reply behaves exactly like the reply `"{}"`, whatever the parse oracle makes of `"{}"`. The oracle may map `"{}"` to None, which gives an "Invalid response from AI" failure. `JSON.parse` never does that: it yields an empty object, a partial record the model cannot represent.
- The string values of the `AnalysisType` enum are not modelled. The code only compares modes by enum member.
- `FileReader` data-URL encoding is browser I/O. `HandleImageUpload` takes a `Types.FileRead`: no file chosen, the finished read's data URL, or a read that ended with no result.
- `Date.now()` id generation is a clock. The id is a parameter of `Add`, and no uniqueness is assumed.
- `async`/`await` interleaving is not modelled. Each handler is an atomic Begin step and Finish step; the window between them and races between overlapping handlers are not captured.
- `console.error` logging is left out.
- `src/App.tsx` is navigation and markup. `src/components/DiagnosticTool.tsx` is a label wrapper around `testConnection`. `src/components/Disclaimer.tsx` is static text. None of the three is part of this model.
- The model leaves out markup, Markdown rendering, class-name merging, icons and animation. The card's " • " separators are also left out: fields are kept separately.
- `MedicineScanner.Scanner.Render`: the rendered text and layout are not modelled, only which parts are shown and what they contain.
- `PrescriptionReader.Reader.Render`: the rendered text and layout are not modelled, only which parts are shown and what they contain.
