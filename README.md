# Home price prediction — a verified model of its logic

The application predicts a home's price from its floor area and bedroom count and stores each
prediction in a hosted table. This project models the four places where it has real logic:

- **The regression service** (`lib/model.ts`), in module `PriceModel`. Training rows are read
  from a CSV stream and turned into a feature matrix `X = [sqft, bedrooms]` and a target
  column `y = [price]`. The fit is cached in one process-wide slot, which is filled at most
  once. `predictPrice` throws until a model is cached.
- **The property form** (`property-form.tsx`), in module `PropertyForm`. Two text inputs are
  checked on every keystroke by ordered first-match rules: required, then not a valid number,
  then too large, and for bedrooms, then not whole. A submit test guards sending the pair.
  The "Calculate Another Property" button resets the form.
- **The edit dialog** (`edit-prediction-modal.tsx`), in module `EditPredictionModal`. It has
  the same rules as the form and a local price preview. Its flat formula is rounded to the
  nearest thousand. It also has confirm, close and an initialisation effect.
- **The predictions list** (`predictions-list.tsx`), in module `PredictionsList`. It fetches
  pages of ten rows and appends them as the user scrolls. A confirmation dialog deletes one
  record; while the request is in flight, that record's id sits in a set of ids being
  deleted.

Shared pieces:

- Module `JsRuntime` holds `Option`, `Result` and ECMAScript `trim` with its whitespace set.
  It also holds the JavaScript number conversions as a record of supplied functions
  (`JsNumbers`). `None` plays the part of `NaN`.
- Module `Supabase` holds the stored `Prediction` record.

Each component's state is a `class` whose methods are its event handlers. The handlers'
`ensures` give the whole new state. Query, fetch and regression results are method
arguments or supplied function values. An `async` handler that changes state before its
`await` is split into two methods at the `await`.

A malformed CSV row does not fail the load: the `data` callback (lib/model.ts:29-35) pushes
a row of `NaN`s (`None` here) and goes on, and so does `PriceModel.LoadCsv`.

## Model

| member | source | states |
|---|---|---|
| JsRuntime.TrimStartSuffix | src/components/property-form.tsx:27 | leading-whitespace removal keeps a suffix that starts with a non-blank and drops only whitespace |
| JsRuntime.TrimEndPrefix | src/components/property-form.tsx:27 | trailing-whitespace removal keeps a prefix that ends with a non-blank and drops only whitespace |
| JsRuntime.Trim | src/components/property-form.tsx:27 | `value.trim()` as leading then trailing whitespace removal; characterised by `TrimStartSuffix`, `TrimEndPrefix` and `TrimEmptyIff` |
| JsRuntime.IsInteger | src/components/property-form.tsx:38 | `Number.isInteger`: false for `NaN`, true for a value with no fractional part; used by `BedroomsVerdicts` |
| JsRuntime.Truncate | src/components/edit-prediction-modal.tsx:47 | the integer part towards zero, which `parseInt` reads back from a printed bedroom count: within 1 of the input, on the zero side |
| JsRuntime.TruncateNonNegative | src/components/edit-prediction-modal.tsx:99 | a truncated count passes the `>= 0` test exactly when the number is above -1 |
| JsRuntime.TrimEmptyIff | src/components/property-form.tsx:27 | `value.trim()` is empty exactly when every character is ECMAScript whitespace; otherwise it starts and ends with a non-blank |
| PropertyForm.TextInjective | src/components/property-form.tsx:27-40 | only "no error" has the empty (falsy) text, and distinct messages have distinct texts, so storing the message enum loses nothing |
| PropertyForm.ValidateSquareFootage | src/components/property-form.tsx:25-31 | the area rules, first match wins; characterised by `SquareFootageVerdicts` |
| PropertyForm.ValidateBedrooms | src/components/property-form.tsx:33-41 | the bedroom rules, first match wins; characterised by `BedroomsVerdicts` |
| PropertyForm.SquareFootageVerdicts | src/components/property-form.tsx:25-31 | "required" iff the input is all whitespace, which wins over the other rules; "invalid" iff non-blank and NaN or ≤ 0; "too large" iff non-blank and > 50000; no error iff non-blank with 0 < value ≤ 50000 |
| PropertyForm.BedroomsVerdicts | src/components/property-form.tsx:33-41 | rules in the order required → `parseInt` NaN or negative → > 20 → `parseFloat` not an integer; no error iff non-blank, `parseInt` in 0..20 and `parseFloat` whole |
| PropertyForm.FormValid | src/components/property-form.tsx:60-71 | a submittable form has both inputs non-blank, no stored errors, parsed area > 0 and parsed bedrooms ≥ 0 |
| PropertyForm.FormValidIffAccepted | src/components/property-form.tsx:60-71 | while the stored errors track the inputs, the form is submittable exactly when both validators accept |
| PropertyForm.Submission | src/components/property-form.tsx:91-96 | a query is sent iff the form is submittable, and it carries `parseFloat` of the area and `parseInt` of the bedrooms |
| PropertyForm.SubmissionWithinBounds | src/components/property-form.tsx:91-96 | what a tracking form sends satisfies 0 < area ≤ 50000 and 0 ≤ bedrooms ≤ 20, with a whole bedroom text |
| PropertyForm.Form.constructor | src/components/property-form.tsx:19-23 | initial state: empty inputs, no errors, not submitted, price 0; errors track the inputs; not submittable |
| PropertyForm.Form.HandleSquareFootageChange | src/components/property-form.tsx:43-52 | stores the text and replaces only the area error with the validator's verdict; everything else is unchanged |
| PropertyForm.Form.HandleBedroomsChange | src/components/property-form.tsx:54-58 | stores the text and replaces only the bedrooms error with the validator's verdict; everything else is unchanged |
| PropertyForm.Form.HandleSubmit | src/components/property-form.tsx:91-103 | nothing is sent for an unsubmittable form; a sent pair is within both bounds; `isSubmitted` and the price change only when a non-null answer came back |
| PropertyForm.Form.Reset | src/components/property-form.tsx:225-231 | both inputs empty, both errors cleared, not submitted, and the form is not submittable |
| EditPredictionModal.ValidateEditSquareFootage | src/components/edit-prediction-modal.tsx:52-58 | gives the same message as the property form's area rule for every input |
| EditPredictionModal.ValidateEditBedrooms | src/components/edit-prediction-modal.tsx:60-68 | gives the same message as the property form's bedrooms rule for every input |
| EditPredictionModal.EditFormValid | src/components/edit-prediction-modal.tsx:90-101 | is the property form's submit test; implies non-blank inputs, parsed area > 0 and parsed bedrooms ≥ 0 |
| EditPredictionModal.Round | src/components/edit-prediction-modal.tsx:108 | `Math.round` gives the integer n with x − ½ < n ≤ x + ½ (halves round up) |
| EditPredictionModal.RawPrice | src/components/edit-prediction-modal.tsx:104-107 | the unrounded estimate sqft·150·(1 + 0.1·beds)·1.2; `CalculateUpdatedPrice`, `NearestThousandUnique` and `PriceMonotone` relate the preview to it |
| EditPredictionModal.CalculateUpdatedPrice | src/components/edit-prediction-modal.tsx:103-109 | a multiple of 1000 within (raw − 500, raw + 500] of raw = sqft·150·(1 + 0.1·beds)·1.2 |
| EditPredictionModal.NearestThousandUnique | src/components/edit-prediction-modal.tsx:103-109 | no other multiple of 1000 lies in that window, so the preview is the nearest thousand with halves up |
| EditPredictionModal.PriceNonNegative | src/components/edit-prediction-modal.tsx:103-109 | non-negative area and bedrooms give a non-negative price |
| EditPredictionModal.PriceMonotone | src/components/edit-prediction-modal.tsx:103-109 | for non-negative arguments the price never decreases in area or in bedrooms |
| EditPredictionModal.InitialisedFormValidity | src/components/edit-prediction-modal.tsx:43-50 | right after initialisation from a record whose numbers print and read back faithfully (`parseInt` truncating towards zero), the dialog is confirmable iff area > 0 and bedrooms > -1: neither the 50000/20 bounds nor the whole-number rule apply, and -0.5 bedrooms passes as -0 |
| EditPredictionModal.Modal.constructor | src/components/edit-prediction-modal.tsx:35-40 | empty inputs and no errors |
| EditPredictionModal.Modal.OnPredictionChange | src/components/edit-prediction-modal.tsx:43-50 | a record sets both inputs to its numbers as strings and clears the errors; no record changes nothing |
| EditPredictionModal.Modal.HandleEditSquareFootageChange | src/components/edit-prediction-modal.tsx:70-79 | stores the text and replaces only the area error |
| EditPredictionModal.Modal.HandleEditBedroomsChange | src/components/edit-prediction-modal.tsx:81-88 | stores the text and replaces only the bedrooms error |
| EditPredictionModal.Modal.PricePreview | src/components/edit-prediction-modal.tsx:212-229 | the preview is shown iff the dialog is confirmable, and is then `CalculateUpdatedPrice` of the parsed area and bedrooms, a non-negative multiple of 1000 |
| EditPredictionModal.Modal.HandleConfirm | src/components/edit-prediction-modal.tsx:120-126 | `onConfirm(parseFloat, parseInt)` happens iff the dialog is confirmable, with area > 0 and bedrooms ≥ 0 |
| EditPredictionModal.Modal.HandleClose | src/components/edit-prediction-modal.tsx:128-133 | both inputs and both errors cleared, leaving the dialog not confirmable |
| PredictionsList.PageFrom | src/components/predictions-list.tsx:54 | the first requested row, p·10; characterised by `PageRangeShape`, `PagesDisjoint` and `PageOfRow` |
| PredictionsList.PageTo | src/components/predictions-list.tsx:55 | the last requested row, p·10 + 9; characterised by the same three lemmas |
| PredictionsList.PageRangeShape | src/components/predictions-list.tsx:54-55 | every requested inclusive range holds exactly 10 rows, and page p + 1 starts right after page p ends |
| PredictionsList.PagesDisjoint | src/components/predictions-list.tsx:54-55 | two distinct pages never request the same row |
| PredictionsList.PageOfRow | src/components/predictions-list.tsx:54-55 | row i belongs to page i / 10, and pages 0..n−1 cover exactly rows 0..10n−1 |
| PredictionsList.HasMore | src/components/predictions-list.tsx:78-80 | more is expected iff a count came back and rows through this page's last index fall short of it (a missing count counts as 0) |
| PredictionsList.RemoveById | src/components/predictions-list.tsx:164-166 | the filter on ids; characterised by `RemoveByIdMembers`, `RemoveByIdAppend`, `RemoveByIdAbsent` and `RemoveByIdLength` |
| PredictionsList.RemoveByIdMembers | src/components/predictions-list.tsx:164-166 | an element survives the filter iff it was in the list with a different id |
| PredictionsList.RemoveByIdAppend | src/components/predictions-list.tsx:164-166 | filtering distributes over concatenation, so it keeps the survivors in their original order |
| PredictionsList.RemoveByIdAbsent | src/components/predictions-list.tsx:164-166 | a list without the id is left exactly as it was |
| PredictionsList.RemoveByIdLength | src/components/predictions-list.tsx:164-166 | the list shrinks by exactly the number of elements with that id |
| PredictionsList.ErrorMessage | src/components/predictions-list.tsx:81-84 | an `Error` shows its own message; anything else shows "Failed to fetch predictions" |
| PredictionsList.List.constructor | src/components/predictions-list.tsx:30-39 | the initial state: empty list, loading, more expected, page 0, nothing being deleted, dialog closed |
| PredictionsList.List.FetchPredictions | src/components/predictions-list.tsx:44-91 | requests rows p·10 to p·10+9. An error keeps the list and `hasMore` and sets the message. Success replaces (initial) or appends (later) the rows and sets `hasMore` by the rule. Both loading flags end false; the other fields are unchanged |
| PredictionsList.List.LoadNextPage | src/components/predictions-list.tsx:99-108 | nothing happens while loading, when no more is expected, or when no card is shown (error or empty list); otherwise it moves to the next page, appends its rows, and on a failed fetch sets the error, after which no further page loads |
| PredictionsList.List.HandleDeleteClick | src/components/predictions-list.tsx:143-146 | selects the record and opens the dialog; every other field is unchanged |
| PredictionsList.List.CancelDelete | src/components/predictions-list.tsx:183-186 | closes the dialog and clears the selection; every other field is unchanged |
| PredictionsList.List.BeginConfirmDelete | src/components/predictions-list.tsx:148-153 | with no selection nothing changes; otherwise the selected id is added to the ids being deleted |
| PredictionsList.List.FinishConfirmDelete | src/components/predictions-list.tsx:154-180 | the id leaves the deleting set either way; success filters the list and closes and clears the dialog, failure leaves list, dialog and selection as they were |
| PredictionsList.ConfirmDeleteRun | src/components/predictions-list.tsx:148-181 | a whole delete: no selection changes nothing; otherwise the deleting set ends as before minus the target's id; success filters the list, closes the dialog and clears the selection; failure leaves list, dialog and selection; page, `hasMore`, error and loading flags never change |
| PriceModel.ToDataRow | lib/model.ts:30-34 | one record's row: `parseFloat` of the area and price cells, `parseInt(_, 10)` of the bedroom cell, a missing cell giving `NaN` |
| PriceModel.RowsOf | lib/model.ts:23-35 | the `data` array after the callback has run for each record; characterised by `RowsOfPointwise` and, through `LoadCsv`, the loader's loop |
| PriceModel.Features | lib/model.ts:46 | `X`; characterised by `TrainingData` |
| PriceModel.Targets | lib/model.ts:47 | `y`; characterised by `TrainingData` |
| PriceModel.Train | lib/model.ts:42-50 | one `trainModel` step on the slot; `Engine.TrainModel` is proved against it, and `ModelNeverReplaced` and `AtMostOneFit` are about its repetition |
| PriceModel.RowsOfPointwise | lib/model.ts:29-35 | one row per CSV record in stream order, row i built from record i alone |
| PriceModel.LoadCsv | lib/model.ts:22-39 | at the end of the stream it resolves with the rows of all records; on a stream error it rejects with that error |
| PriceModel.TrainingData | lib/model.ts:46-47 | X and y have one entry per record, in order: X[i] = [area, bedrooms] and y[i] = [price] of record i |
| PriceModel.InitSlot | lib/model.ts:12 | the initialiser never leaves the slot unset, keeps a model already there, and otherwise writes `null` |
| PriceModel.Predict | lib/model.ts:56-62 | fails with "Model not trained yet" exactly when no model is cached; otherwise it is the cached model's prediction |
| PriceModel.ModelNeverReplaced | lib/model.ts:43-50 | once a model is cached, no sequence of train or predict requests replaces it or fits again |
| PriceModel.AtMostOneFit | lib/model.ts:42-50 | from an untrained slot at most one fit happens, exactly when some training stream ends normally; the first such stream's rows are fitted; with none the slot is unchanged |
| PriceModel.Engine.constructor | lib/model.ts:12 | loading the module applies the initialiser to what the global slot already holds |
| PriceModel.Engine.TrainModel | lib/model.ts:42-53 | a cached model returns at once, unchanged; a stream error rejects and leaves the slot; otherwise the slot holds the fit of the loaded rows' X and y |
| PriceModel.Engine.PredictPrice | lib/model.ts:56-62 | the `Predict` answer for the current slot; the slot is never written |

## Left out

- The least-squares fit and its prediction come from a foreign library of floating-point
  linear algebra. They are the uninterpreted `fit` and `predict` of `PriceModel.Regression`.
  How that library behaves on degenerate data (for example, a throw on a singular matrix, or
  NaN rows in `X`) is not modelled.
- File and stream I/O: the file path, `fs.createReadStream` and `csv-parser` are outside the
  model. A stream is the records the parser emits plus how it ended. Records received before
  an error are accepted and then discarded.
- `PriceModel.LoadCsv`: its `Failed` end stands only for errors of the CSV parser, the stream
  the `error` listener is attached to. An error of the file stream itself, such as a missing
  file, is not forwarded by `pipe`, so `loadCSV` never settles and `trainModel` waits forever.
  That non-terminating case is not modelled.
- Concurrent `trainModel` calls are not modelled. The check, the `await` and the assignment
  have no lock, so two overlapping calls could both fit. `PriceModel.AtMostOneFit` is about
  requests served one after another.
- JavaScript number semantics: `parseFloat`, `parseInt` (both radices) and
  `Number.prototype.toString` are supplied functions, not ECMAScript's prefix grammar.
  Numbers are exact reals. `NaN` is `None`. Infinity, `-0` and floating-point rounding in
  the price formula are not modelled.
- The endpoint `src/app/api/predict/route.ts` and its `toFixed(0)` formatting are not part of
  this model. So the answer the forms receive is modelled as a number, not the string the
  endpoint sends.
- `fetch`, the hosted database client, `IntersectionObserver` registration and
  disconnection, React hooks, re-rendering and async scheduling are not modelled. Responses
  are method arguments, and each handler is a sequential step.
- `PredictionsList.List.FetchPredictions` does not model intermediate renders between the
  request and the `finally` block, for example the transient `loading = true`.
- `PredictionsList.List.LoadNextPage` does not model the observer's `threshold` or the
  visibility test. A call means the last card came into view. Whether that card exists is
  modelled by `ShowsCards` (no loading skeleton, no error card, a non-empty list); the React
  render that creates it is not.
- `PropertyForm.Form.HandleSubmit`, `EditPredictionModal.Modal.HandleConfirm`: the network
  request and the parent's `onConfirm` and `onClose` callbacks are outside the model.
  Confirm returns the pair it would hand over.
- The `isOpen` and `isUpdating` props of the edit dialog only disable buttons and show the
  dialog, so they are not modelled.
- The formatting helpers (`formatCurrency`, `formatPrice`, `formatDate`) rely on locale
  behaviour and are not modelled.
- The presentational components are not part of this model: prediction card, delete dialog,
  not-found page, loading, error and empty views, layout, and page wrapper.
- The sort option table `predictions-sort.tsx` is not part of this model.
- `lib/supabase.ts` is modelled only as the `Prediction` record; creating the client is left
  out.
