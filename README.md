# Nutrition-label scanner front end: a Dafny model of its state machines

The application lets a user upload or photograph a nutrition label. It sends
the image to a remote OCR service, shows the extracted nutrients and an
analysis, and offers a chat panel that forwards prompts to a chatbot
endpoint. All real computation happens in the remote services. What is left
on the client is a handful of small sequential state machines and pure
transformations, and the model covers those:

- **Submission controller** (`home.dfy`, module `Home`). The page keeps an
  `OCRResult` record, one stored abort handle and a reset counter. Each
  request is a numbered handle. A handle is aborted when a later submission
  or a reset replaces it. Settlement happens in a separate step whose
  outcome is an input: a response body, a non-ok response, or some thrown
  value. Pure step functions (`Submit`, `Settle`, `Reset`) specify the class
  `HomePage`, whose methods update its fields in source order. `Settle`
  lets an aborted handle never write, which is what the code does whenever
  the abort reaches it as an "AbortError". The lemmas prove the controller
  invariant over every interleaving of submissions, resets and completions.
  They also prove that only the latest submission's request can write the
  result. The one timing in which the code as written breaks this is
  modelled apart (`SettleAsWritten`).
- **Nutrition summary** (`nutrition_summary.dfy`). The reducer rewrites "N/A"
  values and is modelled as a method with a loop that assigns into the
  accumulator record. The choice between placeholder, nothing and panel is a
  function.
- **Chat panel** (`chatbot_overlay.dfy`). An append-only transcript, the input
  buffer, the busy flag and the request in flight, with the class `ChatPanel`.
- **Upload widget** (`file_upload.dfy`). The drag flag, preview URL, camera
  overlay and reset icon, plus the camera stream. Calls to the parent
  (`onFileSelected`, `onReset`) and alerts are recorded as logs. The class
  `UploadWidget` holds this state.
- **OCR results view** (`ocr_results.dfy`). The character filter, unit choice,
  NaN-to-0 substitution, colour lookup and render branches. `parseFloat` is a
  function parameter.
- **Wiring** (`app.dfy`). The widget's callbacks drive the controller.
- Helpers: `text.dfy` models JavaScript `trim`, `includes` and `toLowerCase`.
  `records.dfy` models a `Record<string, string>` as its `Object.entries`
  list. `Put` models `obj[k] = v` for every key except `"__proto__"`, whose
  assignment is modelled separately (`NutritionSummary.AssignAsWritten`).
  `wrappers.dfy` holds `Option`.

Behaviour of the code worth knowing:
- The chat input and send button are disabled while a reply is awaited, so
  chat requests never overlap.
- The controller stores a failure's message in `error`, but the page never
  renders it. After a failure the summary section is hidden
  (`Home.FailureHidesSummary`).
- If `video.play()` fails after the stream was attached, the overlay closes
  and the stream is never stopped (`leakedStreams`). A stream is not
  released on every path.
- A captured photo is handed to the parent twice, so it starts two requests
  and the first is aborted at once (`App.PhotoCaptureStartsTwoRequests`).
- The chat roles are "user" and "bot".
- The result is written after `response.json()` without checking whether
  the request was aborted meanwhile. An abort that arrives after the body
  was fully read therefore does not stop a superseded response from being
  shown (`Home.LateAbortWritesAsWritten`).

## Model

| member | source | states |
|---|---|---|
| `Text.Trim` | src/components/ChatbotOverlay.tsx:30 | `String.prototype.trim` over the ECMAScript white-space and line-terminator set (properties in `Text.TrimEmptyIff`, used by `ChatbotOverlay.SendEffect`) |
| `Text.TrimEmptyIff` | src/components/ChatbotOverlay.tsx:30 | the trimmed input is empty iff every character is white space or a line terminator |
| `Text.Contains` | src/components/FileUpload.tsx:41 | `includes` (also at NutritionSummary.tsx:36 and OCRResults.tsx:50; the unanchored `match("image.*")` at FileUpload.tsx:41 is the same test) |
| `Text.ContainsIff` | src/components/FileUpload.tsx:41 | `Contains(s, sub)` holds iff `sub` occurs in `s` at some position |
| `Text.ToLower` | src/components/NutritionSummary.tsx:36 | `toLowerCase` on ASCII letters (also at OCRResults.tsx:50): same length, each character mapped by `LowerChar` |
| `Records.Put` | src/components/NutritionSummary.tsx:36-38 | for every key except `"__proto__"` (see `NutritionSummary.AssignAsWritten`), after `acc[key] = v` the key maps to `v` and every other key keeps its lookup |
| `Records.PutFreshAppends` | src/components/NutritionSummary.tsx:36-38 | assigning a key the record lacks appends exactly one entry at the end |
| `NutritionSummary.NormalisedValue` | src/components/NutritionSummary.tsx:34-38 | the value the reducer stores for one entry (properties in `NormalisedValueCases`) |
| `NutritionSummary.Normalise` | src/components/NutritionSummary.tsx:31-44 | the record the reduce is meant to build: every entry in order with its value normalised (properties in `NormaliseAt`, `NormaliseKeepsKeys`, `NormaliseGet`, `NormaliseIdempotent`) |
| `NutritionSummary.AssignAsWritten` | src/components/NutritionSummary.tsx:36-38 | `acc[key] = v` with ECMAScript semantics: the key `"__proto__"` leaves the record unchanged (used by `ProtoKeyDroppedAsWritten`) |
| `NutritionSummary.ReduceAsWritten` | src/components/NutritionSummary.tsx:31-44 | the reduce with ECMAScript assignment (related to `Normalise` by `ReduceAsWrittenAgrees` and `ProtoKeyDroppedAsWritten`) |
| `NutritionSummary.Render` | src/components/NutritionSummary.tsx:15-76 | the view the component returns: placeholder, nothing, or the panel with its sections (properties in `RenderBranches`) |
| `NutritionSummary.NormalisedValueCases` | src/components/NutritionSummary.tsx:34-38 | a value changes iff it is exactly "N/A" (so "n/a" passes through); "N/A" becomes "0mg" iff the lower-cased key contains "garam", else "0g"; the result is never "N/A" |
| `NutritionSummary.NormaliseAt` | src/components/NutritionSummary.tsx:31-44 | entry i of the normalised record is key i of the input with its normalised value |
| `NutritionSummary.NormaliseKeepsKeys` | src/components/NutritionSummary.tsx:31-44 | normalisation yields exactly the input's keys in the input's order, and keeps them distinct |
| `NutritionSummary.NormaliseGet` | src/components/NutritionSummary.tsx:31-44 | looking up a key after normalisation gives the normalised value of its lookup before, and absent keys stay absent |
| `NutritionSummary.NormaliseIdempotent` | src/components/NutritionSummary.tsx:34-38 | normalising twice equals normalising once |
| `NutritionSummary.NormaliseStep` | src/components/NutritionSummary.tsx:33-41 | one reducer step (assigning the next normalised entry) extends the accumulated result by exactly that entry |
| `NutritionSummary.ProcessNutrients` | src/components/NutritionSummary.tsx:31-44 | the in-place reduce returns null for null nutrients and otherwise exactly the normalised record |
| `NutritionSummary.SaltAndProteinExample` | src/components/NutritionSummary.tsx:34-36 | {"Garam": "N/A", "Protein": "N/A"} becomes {"Garam": "0mg", "Protein": "0g"} |
| `NutritionSummary.ReduceAsWrittenAgrees` | src/components/NutritionSummary.tsx:31-44 | for records without the key "__proto__", the reduce with ECMAScript assignment semantics equals the normalisation |
| `NutritionSummary.ProtoKeyDroppedAsWritten` | src/components/NutritionSummary.tsx:36-38 | with ECMAScript semantics a leading "__proto__" entry vanishes from the output while the normalisation keeps it |
| `NutritionSummary.RenderBranches` | src/components/NutritionSummary.tsx:15-76 | loading shows the placeholder whatever else is set; otherwise nothing is rendered iff nutrients are null and analysis is null or empty; the list shows exactly the normalised nutrients (the input's keys in order, "N/A" rewritten); the analysis section appears iff analysis is non-empty, and then shows exactly the analysis text |
| `Home.Submit` | src/pages/Home.tsx:27-40 | `handleFileSelected` up to the `await` (properties in `SubmitEffect`) |
| `Home.Reset` | src/pages/Home.tsx:79-93 | `handleReset` (properties in `ResetEffect`) |
| `Home.Delivered` | src/pages/Home.tsx:45-50 | what the awaiting code receives when every abort reaches it as an "AbortError" (used by `StaleCompletionIgnored`); `DeliveredAsWritten` drops that assumption |
| `Home.DeliveredAsWritten` | src/pages/Home.tsx:45-56 | what the awaiting code receives under the Fetch Standard: an abort after `response.json()` has read the whole body leaves the response delivered |
| `Home.SettleAsWritten` | src/pages/Home.tsx:45-76 | the settle as written, with no check of `controller.signal.aborted` (exhibited by `LateAbortWritesAsWritten`) |
| `Home.LateAbortWritesAsWritten` | src/pages/Home.tsx:57-62 | after two submissions, the first request's response (body read before the second submission aborted it) overwrites the second's loading state, and the controller invariant no longer holds |
| `Home.SettleGuarded` | src/pages/Home.tsx:57-62 | the settle with an `aborted` check before `setResult`: an aborted handle never changes the result, a live one settles as written, and the whole equals `Settle` for every abort timing |
| `Home.OrNull` | src/pages/Home.tsx:59 | `analysis \|\| null`: the empty string becomes null |
| `Home.Caught` | src/pages/Home.tsx:63-75 | the `catch` block: an AbortError returns silently, any other Error gives its message, a non-Error the fixed message |
| `Home.Settled` | src/pages/Home.tsx:52-75 | the result once the `try`/`catch` has run against an outcome (properties in `LiveCompletion`) |
| `Home.Settle` | src/pages/Home.tsx:45-76 | `handleFileSelected` after the `await` for one handle, aborted handles never writing (equal to `SettleGuarded`; properties in `StaleCompletionIgnored`, `LiveCompletion`, `SettlePreservesInv`) |
| `Home.SummaryShown` | src/pages/Home.tsx:114 | the condition that mounts the summary section (properties in `SummaryShownIff`) |
| `Home.InitialInv` | src/pages/Home.tsx:16-25 | the initial state (all null, not loading, no handle, counter 0) satisfies the controller invariant |
| `Home.SubmitEffect` | src/pages/Home.tsx:27-40 | submitting aborts the stored handle, stores a fresh unaborted pending handle, sets the result to nutrients/analysis/error null with loading true, and keeps the invariant |
| `Home.ResetEffect` | src/pages/Home.tsx:79-93 | reset aborts the stored handle and clears it, so every issued handle is aborted; it restores the all-null not-loading result, adds exactly one to resetCounter and keeps the invariant |
| `Home.StaleCompletionIgnored` | src/pages/Home.tsx:63-67 | a request whose handle was aborted settles without changing the result |
| `Home.OnlyLatestWrites` | src/pages/Home.tsx:28-33 | if a completion changes the result, its handle is the stored, unaborted, most recently issued one |
| `Home.LiveCompletion` | src/pages/Home.tsx:52-75 | for the live request: success sets nutrients and analysis from the body (missing nutrients and a missing or empty analysis become null; an empty nutrients record is kept), with error null and loading false; non-ok gives error "Failed to process the image"; an Error gives its message; a non-Error gives "An unknown error occurred"; nutrients and analysis are null on every failure |
| `Home.SettlePreservesInv` | src/pages/Home.tsx:45-76 | settling any pending request keeps the controller invariant |
| `Home.AtMostOneLive` | src/pages/Home.tsx:28-33 | under the invariant at most one issued handle is unaborted, and that one is stored |
| `Home.RunPreservesInv` | src/pages/Home.tsx:27-93 | the invariant holds after any interleaving of submissions, resets and completions |
| `Home.TrackedAfterRun` | src/pages/Home.tsx:28-33 | an aborted handle stays aborted, and a stored handle is aborted by any later submit or reset |
| `Home.SupersededNeverWrites` | src/pages/Home.tsx:80-83 | once a later submission or a reset has happened, a submission's request cannot write the result, whatever interleaves |
| `Home.DoubleSubmitAbortsFirst` | src/pages/Home.tsx:27-40 | two submissions in a row abort the first handle and leave only the second stored and loading |
| `Home.SummaryShownIff` | src/pages/Home.tsx:114 | the summary section is shown iff nutrients or analysis is non-null or loading is on, and iff the summary then renders something |
| `Home.FailureHidesSummary` | src/pages/Home.tsx:68-75 | after a failure the summary section is hidden; the error text is not shown |
| `Home.HomePage.constructor` | src/pages/Home.tsx:16-25 | fields start in the initial controller state |
| `Home.HomePage.HandleFileSelected` | src/pages/Home.tsx:27-40 | the fields become `Submit` of their old values; returns the new handle, which is stored; keeps the invariant |
| `Home.HomePage.RequestSettled` | src/pages/Home.tsx:45-76 | the fields become `Settle` of their old values for that handle and outcome; keeps the invariant |
| `Home.HomePage.HandleReset` | src/pages/Home.tsx:79-93 | the fields become `Reset` of their old values; keeps the invariant |
| `ChatbotOverlay.Reply` | src/components/ChatbotOverlay.tsx:46-61 | the bot message a settled request appends (properties in `SettleEffect`) |
| `ChatbotOverlay.TypeInto` | src/components/ChatbotOverlay.tsx:141-144 | `onChange` of the input, disabled while loading (properties in `BusyBlocksSending`) |
| `ChatbotOverlay.Send` | src/components/ChatbotOverlay.tsx:29-35 | `handleSend` up to the `await` (properties in `SendEffect`) |
| `ChatbotOverlay.KeyDown` | src/components/ChatbotOverlay.tsx:67-72 | `handleKeyDown` (properties in `BusyBlocksSending`, `StepPreservesInv`) |
| `ChatbotOverlay.ClickSend` | src/components/ChatbotOverlay.tsx:146-148 | a click on the send button, disabled while loading (properties in `BusyBlocksSending`) |
| `ChatbotOverlay.Settle` | src/components/ChatbotOverlay.tsx:46-64 | the rest of `handleSend`: append the reply and clear the busy flag (properties in `SettleEffect`, `ExchangeGrowsByTwo`) |
| `ChatbotOverlay.OpenedInv` | src/components/ChatbotOverlay.tsx:14-18 | the transcript starts as exactly the bot greeting, with empty input and not loading |
| `ChatbotOverlay.SendEffect` | src/components/ChatbotOverlay.tsx:29-35 | whitespace-only input changes nothing and issues no request; otherwise one user message with the untrimmed input is appended, the input cleared, loading set, and that input becomes the prompt |
| `ChatbotOverlay.SettleEffect` | src/components/ChatbotOverlay.tsx:46-64 | settling appends exactly one bot message: the response when present and non-empty, else "Sorry, I didn't understand that."; on a non-ok response or a failure, "An error occurred. Please try again later."; loading ends |
| `ChatbotOverlay.ExchangeGrowsByTwo` | src/components/ChatbotOverlay.tsx:32-64 | a send followed by its settlement grows the transcript by exactly two (user, then bot) and keeps the old messages as a prefix |
| `ChatbotOverlay.BusyBlocksSending` | src/components/ChatbotOverlay.tsx:67-72 | while loading, Enter, the button and typing change nothing |
| `ChatbotOverlay.StepPreservesInv` | src/components/ChatbotOverlay.tsx:29-72 | every user action or reply keeps the transcript invariant and extends the transcript |
| `ChatbotOverlay.RunAppendOnly` | src/components/ChatbotOverlay.tsx:29-72 | after any sequence of actions and replies: greeting first, user and bot messages alternating, loading iff the last message is an unanswered user message, earlier messages kept as a prefix |
| `ChatbotOverlay.ChatPanel.constructor` | src/components/ChatbotOverlay.tsx:14-18 | fields start as the opened panel |
| `ChatbotOverlay.ChatPanel.SetInput` | src/components/ChatbotOverlay.tsx:142-144 | typing replaces the input unless the field is disabled by loading |
| `ChatbotOverlay.ChatPanel.HandleSend` | src/components/ChatbotOverlay.tsx:29-44 | the fields become `Send` of their old values; a prompt is returned iff a request starts, and it is the old input |
| `ChatbotOverlay.ChatPanel.HandleKeyDown` | src/components/ChatbotOverlay.tsx:67-72 | Enter while not loading performs the send; anything else changes nothing |
| `ChatbotOverlay.ChatPanel.ClickSendButton` | src/components/ChatbotOverlay.tsx:146-148 | the disabled-while-loading button performs the send only when not loading |
| `ChatbotOverlay.ChatPanel.RequestSettled` | src/components/ChatbotOverlay.tsx:50-64 | the fields become `Settle` of their old values; keeps the invariant |
| `FileUpload.IsImageType` | src/components/FileUpload.tsx:41 | `type.match("image.*")` (properties in `ImageTypeIff` and the three example lemmas) |
| `FileUpload.OnDrag` | src/components/FileUpload.tsx:19-23 | `handleDrag` (properties in `HandleDragIff`) |
| `FileUpload.OnFile` | src/components/FileUpload.tsx:40-49 | `handleFile` (properties in `HandleFileEffect`) |
| `FileUpload.FirstFile` | src/components/FileUpload.tsx:29 | `files && files[0]`: the first file, if any (properties in `HandleDropEffect`) |
| `FileUpload.OnDrop` | src/components/FileUpload.tsx:25-32 | `handleDrop` (properties in `HandleDropEffect`) |
| `FileUpload.OnChange` | src/components/FileUpload.tsx:34-38 | `handleChange` (properties in `HandleDropEffect`) |
| `FileUpload.OnStartCamera` | src/components/FileUpload.tsx:55-70 | `startCamera` for each answer of the camera (properties in `StartCameraEffect`) |
| `FileUpload.OnStopCamera` | src/components/FileUpload.tsx:72-79 | `stopCamera`: overlay closed, stream stopped (used by `CaptureClosesCamera`, `ResetUploadEffect`) |
| `FileUpload.OnCapture` | src/components/FileUpload.tsx:81-101 | `capturePhoto` up to the blob callback (properties in `CaptureClosesCamera`) |
| `FileUpload.OnPhotoBlob` | src/components/FileUpload.tsx:91-97 | the `toBlob` callback (properties in `PhotoSelectedTwice`) |
| `FileUpload.OnResetUpload` | src/components/FileUpload.tsx:103-111 | `resetUpload` (properties in `ResetUploadEffect`) |
| `FileUpload.Reachable` | src/components/FileUpload.tsx:116-205 | which handlers are on screen: the full-screen camera overlay (lines 116-139) with capture and close, the upload area (142-189) when there is no preview, the reset button (197-205) with the preview; `Step` ignores events from elements not shown (used by `StepPreservesInv`, `RunPreservesInv`) |
| `FileUpload.UploadAreaShown` | src/components/FileUpload.tsx:142 | the drop zone and picker are rendered exactly when there is no preview (used by `ResetUploadEffect`) |
| `FileUpload.ImageTypeIff` | src/components/FileUpload.tsx:41 | a MIME type is accepted iff "image" occurs in it at some position (case-sensitive, unanchored) |
| `FileUpload.ImageTypeExamples` | src/components/FileUpload.tsx:41 | "image/png" is accepted |
| `FileUpload.ImageTypeUnanchored` | src/components/FileUpload.tsx:41 | "application/x-image" is accepted: the match is not anchored at the start |
| `FileUpload.ImageTypeCaseSensitive` | src/components/FileUpload.tsx:41 | "IMAGE/PNG" is rejected |
| `FileUpload.HandleDragIff` | src/components/FileUpload.tsx:19-23 | dragActive becomes true iff the event type is "dragenter" or "dragover"; nothing else changes |
| `FileUpload.HandleFileEffect` | src/components/FileUpload.tsx:40-49 | a rejected file only raises the alert (preview, icon and callbacks unchanged); an accepted one sets the preview, calls onFileSelected exactly once and shows the reset icon |
| `FileUpload.HandleDropEffect` | src/components/FileUpload.tsx:25-38 | drop clears dragActive; drop and change hand over only the first file, and only if there is one |
| `FileUpload.StartCameraEffect` | src/components/FileUpload.tsx:55-70 | the overlay stays open iff the camera plays; on failure the alert is raised; a failed `play()` leaves one more camera stream running with nothing to stop it, and the other answers leak none; preview and callbacks are untouched |
| `FileUpload.CaptureClosesCamera` | src/components/FileUpload.tsx:81-101 | capture closes the overlay and stops the stream at once, makes no callback yet, and requests one blob when a context exists |
| `FileUpload.PhotoSelectedTwice` | src/components/FileUpload.tsx:91-97 | when the blob arrives, onFileSelected is called twice with the same "photo.jpg" JPEG file and the preview is set |
| `FileUpload.ResetUploadEffect` | src/components/FileUpload.tsx:103-111 | reset clears the preview and the reset icon, closes the overlay and stream, calls onReset exactly once, and the upload area is shown again |
| `FileUpload.StepPreservesInv` | src/components/FileUpload.tsx:19-111 | every on-screen event keeps the widget invariant (stream attached iff overlay shown, reset icon iff preview), and never removes a callback, an alert or a leaked stream |
| `FileUpload.RunPreservesInv` | src/components/FileUpload.tsx:19-111 | the same holds after any event sequence |
| `FileUpload.UploadWidget.constructor` | src/components/FileUpload.tsx:11-14 | fields start cleared, with no callbacks and no alerts |
| `FileUpload.UploadWidget.HandleDrag` | src/components/FileUpload.tsx:19-23 | the fields become `OnDrag` of their old values |
| `FileUpload.UploadWidget.HandleDrop` | src/components/FileUpload.tsx:25-32 | the fields become `OnDrop` of their old values |
| `FileUpload.UploadWidget.HandleChange` | src/components/FileUpload.tsx:34-38 | the fields become `OnChange` of their old values |
| `FileUpload.UploadWidget.HandleFile` | src/components/FileUpload.tsx:40-49 | the fields become `OnFile` of their old values |
| `FileUpload.UploadWidget.StartCamera` | src/components/FileUpload.tsx:55-70 | the fields become `OnStartCamera` of their old values for the camera's answer |
| `FileUpload.UploadWidget.StopCamera` | src/components/FileUpload.tsx:72-79 | the overlay closes and the attached stream is stopped |
| `FileUpload.UploadWidget.CapturePhoto` | src/components/FileUpload.tsx:81-101 | the fields become `OnCapture` of their old values |
| `FileUpload.UploadWidget.PhotoBlobReady` | src/components/FileUpload.tsx:91-97 | the fields become `OnPhotoBlob` of their old values |
| `FileUpload.UploadWidget.ResetUpload` | src/components/FileUpload.tsx:103-111 | the fields become `OnResetUpload` of their old values |
| `OcrResults.KeepNumberChars` | src/components/OCRResults.tsx:42 | `value.replace(/[^\d.-]/g, "")` (pinned down by `KeptCharsAreNumberChars`, `KeepNumberCharsAppend`, `KeepNumberCharsIdentity`, `KeepNumberCharsDrops`) |
| `OcrResults.Unit` | src/components/OCRResults.tsx:49-51 | the unit suffix (properties in `ProcessNutrientsAt`, `UnitExamples`) |
| `OcrResults.ProcessEntry` | src/components/OCRResults.tsx:41-52 | the `map` callback, including the NaN-to-0 reassignment (properties in `ProcessNutrientsAt`) |
| `OcrResults.BackgroundColor` | src/components/OCRResults.tsx:83 | the fill colour lookup, table keys only (properties in `ColorLookup`) |
| `OcrResults.BorderColor` | src/components/OCRResults.tsx:86 | the border colour lookup, table keys only (properties in `ColorLookup`) |
| `OcrResults.BackgroundColorAsWritten` | src/components/OCRResults.tsx:83 | the fill lookup with ECMAScript property reads, inherited members included (properties in `InheritedKeyMissesFallback`, `AsWrittenAgreesElsewhere`) |
| `OcrResults.BorderColorAsWritten` | src/components/OCRResults.tsx:86 | the border lookup with ECMAScript property reads (properties in `InheritedKeyMissesFallback`, `AsWrittenAgreesElsewhere`) |
| `OcrResults.ToChart` | src/components/OCRResults.tsx:76-91 | one doughnut chart's key, amount, unit and colours (used by `RenderBranches`) |
| `OcrResults.Render` | src/components/OCRResults.tsx:19-113 | the view the component returns (properties in `RenderBranches`) |
| `OcrResults.KeptCharsAreNumberChars` | src/components/OCRResults.tsx:42 | the filtered text holds only digits, '.' and '-', and is no longer than the value |
| `OcrResults.KeepNumberCharsAppend` | src/components/OCRResults.tsx:42 | the filter works character by character: it distributes over concatenation |
| `OcrResults.KeepNumberCharsIdentity` | src/components/OCRResults.tsx:42 | text made only of digits, '.' and '-' passes unchanged |
| `OcrResults.KeepNumberCharsDrops` | src/components/OCRResults.tsx:42 | any single character other than a digit, '.' or '-' is removed; with `KeepNumberCharsAppend` and `KeepNumberCharsIdentity` this fixes the filter on every input |
| `OcrResults.KeepNumberCharsNoneKept` | src/components/OCRResults.tsx:42 | text with no digit, '.' or '-' filters to the empty string |
| `OcrResults.ProcessNutrients` | src/components/OCRResults.tsx:41-53 | one output entry per input entry, with the same key, in the same order |
| `OcrResults.ProcessNutrientsAt` | src/components/OCRResults.tsx:41-51 | entry i's amount is the parse of the filtered value, or 0 when that is NaN; its unit is "mg" iff the lower-cased value contains "mg", otherwise "g" |
| `OcrResults.UnitExamples` | src/components/OCRResults.tsx:49-51 | "250MG" is in mg and "12 g" in g |
| `OcrResults.ColorLookup` | src/components/OCRResults.tsx:56-87 | the four named nutrients get their fixed fill and border colours, and every other key gets the grey fallback |
| `OcrResults.InheritedKeyMissesFallback` | src/components/OCRResults.tsx:83-86 | with ECMAScript property lookup, a key named "toString" gets an inherited member as fill and border colour instead of the grey fallbacks |
| `OcrResults.AsWrittenAgreesElsewhere` | src/components/OCRResults.tsx:83-86 | for every key that is not an Object.prototype member, both lookups as written equal the intended ones |
| `OcrResults.RenderBranches` | src/components/OCRResults.tsx:19-113 | loading shows the placeholder; otherwise null or empty nutrients show "no data"; otherwise one chart per entry in order, carrying its key, its processed amount, the unit chosen from its value, and its fill and border colours |
| `App.Forward` | src/pages/Home.tsx:107-111 | each onFileSelected callback becomes a submission and each onReset a reset, one for one and in order |
| `App.PhotoCaptureStartsTwoRequests` | src/components/FileUpload.tsx:91-97 | a captured photo starts two requests: the first is aborted at once, only the second is stored, and the page shows loading |
| `App.ResetButtonResetsPage` | src/components/FileUpload.tsx:103-111 | the widget's reset resets the controller exactly once |

## Left out

- Network: `fetch`, `FormData`, `response.json()` and the fixed endpoint URLs are not modelled. Each request's settlement is an input (`Home.Outcome`, `ChatbotOverlay.ChatOutcome`). A body that fails to parse is a `Rejected(ErrorObject(...))` outcome.
- Response shape: the model only lets `data.nutrients` be absent or a string record. Other JSON values there (a number, a string, an array) are not modelled. The same goes for non-string `data.analysis` and `data.response`.
- Home.Delivered: assumes every abort reaches the awaiting code as an "AbortError". Under the Fetch Standard an abort that lands after `response.json()` has read the whole body, but before its parse task runs, is not seen and the response is still delivered. That window is modelled only by `DeliveredAsWritten`/`SettleAsWritten` (see "## Findings"). `Settle`, the class and the trace lemmas use the guarded settle. A body that fails to parse in the same window is not modelled.
- Home.SettlePreservesInv: assumes the network never rejects with an "AbortError" by its own accord (`FromNetwork`). Without that assumption the code would drop such a rejection and stay in loading.
- Home.RunPreservesInv: makes the same assumption about every completion in the trace.
- Home.HomePage.RequestSettled: keeps the invariant only under that assumption. Its new state is `Settle`, the guarded settle, so it does not model the late-abort window above.
- ChatbotOverlay.ChatPanel.HandleSend: requires that no reply is awaited. Both of its callers guarantee this: the Enter-key guard and the send button, which is disabled while loading. Overlapping chat requests are therefore not modelled.
- Chat panel mounting: opening or closing the panel (`showChatbot`) is not modelled, beyond the fact that each mount starts a fresh transcript (the constructor). The scroll-to-bottom effect is not modelled either.
- FileUpload.UploadWidget.StartCamera: treated as one step. A close, capture or reset while the camera permission is still pending is not modelled, nor is `getUserMedia` resolving after the overlay was closed.
- Camera and canvas: video dimensions, `drawImage`, the blob's bytes and `URL.createObjectURL` are opaque inputs. A missing 2D context is a boolean. Object URLs are never revoked, and the model does not track them.
- Clearing the file input's value in `resetUpload` is not modelled. The input is only mounted while no preview exists, so it has no effect on the modelled state.
- `parseFloat` is an arbitrary function parameter, and floating point is not modelled. The parsed number is a real. The template string that joins number and unit is not modelled: `Amount` keeps the two apart.
- `toLowerCase` folds ASCII letters only. Non-ASCII case mappings are not modelled.
- Property order: a record is its `Object.entries` list. The rule that orders integer-like keys first is not modelled. The reduce and the map both keep the entry order, so this does not affect them.
- `OCRResults` is not used by the home page. It is modelled on its own.
- Rendering: JSX, styling, animations, ReactMarkdown, Chart.js registration and options, tooltip text, the `isProcessing` spinner, `console` output and the timing of React state updates are not modelled. Each `setState` is an immediate assignment in source order. Alerts are recorded as a list of messages.
- `resetCounter` is kept as a number. The remount it triggers is not modelled.

## Findings

| source | as written | input that shows it | evidently intended | confidence | as-written member | corrected member |
|---|---|---|---|---|---|---|
| src/components/NutritionSummary.tsx:36-38 | `acc[key] = ...` on a plain object; for the key "__proto__" this runs the inherited `__proto__` setter, which ignores a string value | nutrients `{"__proto__": "N/A", "Protein": "N/A"}` (an own key after `JSON.parse`) yields `{"Protein": "0g"}` | every input key appears in the output | not executed; follows from the ECMAScript `__proto__` accessor | `NutritionSummary.ProtoKeyDroppedAsWritten` | `NutritionSummary.ProcessNutrients` |
| src/components/OCRResults.tsx:83-86 | `nutrientColors[key] \|\| "rgba(200, 200, 200, 0.5)"` (line 83) and `nutrientBorderColors[key] \|\| "rgba(200, 200, 200, 1)"` (line 86) also find members inherited from `Object.prototype` | a nutrient named "toString" gets the function `Object.prototype.toString` as its background and border colour | grey for every key the table does not list | not executed; follows from ECMAScript property lookup | `OcrResults.InheritedKeyMissesFallback` | `OcrResults.ColorLookup` |
| src/pages/Home.tsx:57-62 | after `await response.json()` the result is written without checking `controller.signal.aborted`; aborting errors the body only while it is still readable | submit A; A's body is fully read; the user selects B (or clicks reset) before A's parse task runs: A's nutrients and analysis replace B's loading state (or reappear after the reset) | a superseded or reset request never writes the result | not executed; follows from the Fetch Standard's "abort fetch" and "fully read body" steps | `Home.LateAbortWritesAsWritten` | `Home.SettleGuarded` |
