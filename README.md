# HeartWise assessment flow, modelled in Dafny

HeartWise collects thirteen health metrics in a five-step wizard. It sends them as a feature vector to a remote predictor and shows the returned risk on a result page. This project models the interactive core of the web client:

- **Form record** (`FormFields`): thirteen text fields, all present from the start, edited one at a time.
- **Prediction client** (`Api`): builds the vector in a fixed order and refuses it when an entry is not a number. It makes one request and maps the outcome to `High Risk`, `Low Risk` or `Error`. It never throws.
- **Wizard** (`FormPage`): a class holding the step counter, the analyzing flag and the form. It has the raw handlers, the per-step validity test and the button gating. It also has the progress and step-indicator arithmetic and the submission that writes the result to storage.
- **Storage** (`BrowserStorage`): `localStorage` as a class over a `map<string, string>`. Each write may throw on its own: whether the browser takes it is a parameter of the key, the value and the current contents. Reads throw when storage access is blocked.
- **Result page** (`ResultPage`): the mount effect that reads the two keys back, and the pure label, colour, advice and percentage mappings.
- **Hand-off** (`Handoff`): the write/read round trip across the two pages, and one whole session as a client method.

JavaScript numbers are `Number = NaN | Infinity(negative) | Finite(real)`, and `null` is `Nullable`. Some things are function parameters, and the model assumes only what a lemma's `requires` states about them:
- `parseFloat` and `parseInt` (`string -> Number`);
- `Number.prototype.toString` for the probability (`real -> string`);
- the network call `fetch` (feature vector `->` outcome).

The outcome is a network failure, or a status with a body that is either an object or unreadable. `toString` of the 0/1 code and of the HTTP status is modelled concretely (`DecimalString`). `Math.round(x)` is `Floor(x + 0.5)`.

The wizard's raw handlers check no validity, as in the code; `handleNext` and `handlePrev` only keep the step within 1..5. The page's controls are modelled separately:
- `PressNext`, `PressPrev` and `PressSubmit` require what the `disabled` attributes demand.
- `Edit` requires that the field is one the current step renders.

Under these actions the invariant `Reachable()` holds: every step before the current one is valid. So Complete Assessment is only ever pressed on a fully answered form.

Behaviour of the code worth knowing:
- **Errors are shown as low risk.** `getPrediction` resolves to an `Error` result rather than rejecting. `handleSubmit` then stores code 0 and probability 0, and navigates. A failed analysis therefore appears on the result page as "Low Risk", with the low-risk advice, at 0% (`Handoff.ErrorShownAsLowRisk`, `Handoff.UnreachablePredictorSession`). The catch branch of `handleSubmit` (alert, flag lowered) runs only when writing to storage throws.
- **A failed write leaves earlier writes in place.** The submission writes three keys in turn. When the second or third `setItem` throws, the catch branch lowers the flag and stays on the form, yet the new code (and perhaps the new probability) is already stored (`FormPage.SubmitWritesStopEarly`). If the probability write is the one refused, a later visit to the result page pairs the new code with an earlier submission's probability (`Handoff.StaleProbabilityAfterRefusedWrite`).
- **A blocked storage: the mount effect throws.** `getItem` then throws inside the mount effect before `setLoading(false)`, so the page never leaves its loading state (`ResultPage.Mount`); what React then renders is not modelled.
- **Infinities pass the numeric check.** The check tests only for NaN, so a field that parses to an infinity is sent (`Api.InfinityIsAccepted`).
- **Advice can disagree with the label.** The advice has three cases keyed on 1, 0 and everything else. So a stored code other than 0 or 1, or NaN, is labelled "Low Risk" but gets the generic advice (`ResultPage.AdviceDisagreesElsewhere`).
- **Confidence is not clamped.** If the predictor's probability is in [0, 1], so is the confidence; nothing clamps it (`Api.ConfidenceInUnitInterval`).
- **No range validation.** Fields are checked for being non-empty, and the vector for NaN; no range check is made anywhere.

## Model

| member | source | states |
|---|---|---|
| `JsValues.Round` | heart-disease-predictor/app/result/page.tsx:55 | `Math.round` of a finite value is the nearest integer, halves rounded up |
| `JsValues.MathRound` | heart-disease-predictor/app/result/page.tsx:55 | NaN and infinities pass through `Math.round` unchanged; finite values are rounded |
| `JsValues.Scale` | heart-disease-predictor/app/result/page.tsx:55 | `confidence * 100` stays finite exactly when the confidence is finite; NaN and infinities are unchanged |
| `JsValues.DecimalString` | heart-disease-predictor/app/form/page.tsx:63 | `toString` of a non-negative integer is non-empty decimal digits with no leading zero |
| `JsValues.DecimalRoundTrip` | heart-disease-predictor/app/form/page.tsx:63 | reading the decimal text of `n` gives back `n` |
| `FormFields.EmptyForm` | heart-disease-predictor/app/form/page.tsx:14-28 | a new session has all thirteen fields present and empty |
| `FormFields.Form.Set` | heart-disease-predictor/app/form/page.tsx:30-32 | the named field takes the new value and every other field keeps its value |
| `FormFields.SetLastWriteWins` | heart-disease-predictor/app/form/page.tsx:30-32 | editing a field twice leaves only the second value |
| `FormFields.SetSameValue` | heart-disease-predictor/app/form/page.tsx:30-32 | writing a field's own value leaves the form unchanged |
| `Api.Position` | heart-disease-predictor/utils/api.ts:4-18 | each field has a position in the feature order, and that entry is the field |
| `Api.FieldOrderIsPermutation` | heart-disease-predictor/utils/api.ts:4-18 | the order lists thirteen entries, every field exactly once |
| `Api.Features` | heart-disease-predictor/utils/api.ts:4-18 | the vector has 13 entries; entry i is `parseFloat` of the i-th field of the order age … thal |
| `Api.SomeNaN` | heart-disease-predictor/utils/api.ts:21 | `features.some(isNaN)` as a scan from the front: the first entry is NaN or the rest contain one |
| `Api.SomeNaNExactly` | heart-disease-predictor/utils/api.ts:21 | the `some(isNaN)` scan is true iff some entry is NaN |
| `Api.RejectedIffSomeFieldNaN` | heart-disease-predictor/utils/api.ts:4-23 | the vector is refused iff some field parses to NaN, in both directions |
| `Api.EmptyFieldIsRejected` | heart-disease-predictor/utils/api.ts:21-23 | with `parseFloat("")` NaN, any empty field makes the vector refused |
| `Api.InfinityIsAccepted` | heart-disease-predictor/utils/api.ts:21-23 | an entry that parses to an infinity is not refused by the check |
| `Api.Ok` | heart-disease-predictor/utils/api.ts:36 | `response.ok` holds for the statuses 200 to 299 |
| `Api.HttpErrorMessage` | heart-disease-predictor/utils/api.ts:37 | the message of a non-ok response is the prefix `HTTP error! status: ` followed by the status in decimal |
| `Api.HttpErrorMessageIdentifiesStatus` | heart-disease-predictor/utils/api.ts:37 | two HTTP error messages are equal only for equal statuses |
| `Api.HttpErrorMessageCarriesStatus` | heart-disease-predictor/utils/api.ts:36-38 | the HTTP error message is the fixed prefix followed by the status, which can be read back |
| `Api.Failed` | heart-disease-predictor/utils/api.ts:47-56 | the catch block gives result Error, confidence 0, and the thrown message |
| `Api.Classify` | heart-disease-predictor/utils/api.ts:43-46 | prediction exactly 1 gives High Risk, anything else Low Risk; confidence is the probability, or 0 when it is absent |
| `Api.Respond` | heart-disease-predictor/utils/api.ts:27-56 | success iff the status is 2xx and the body is an object, and then the result is what `Classify` makes of the object's two fields; a network failure, non-ok status or unreadable body gives Error with its message and confidence 0 |
| `Api.ConfidenceInUnitInterval` | heart-disease-predictor/utils/api.ts:45 | if the predictor's probability is in [0, 1], so is the confidence, on every path |
| `Api.GetPrediction` | heart-disease-predictor/utils/api.ts:1-57 | never fails: the result is well formed; no request is sent iff some field parses to NaN, in which case the result is the invalid-input error; otherwise the vector is sent once and its outcome normalised |
| `Api.RespondExamples` | heart-disease-predictor/utils/api.ts:36-46 | (1, 0.82) gives High Risk 0.82; (0, 0.13) gives Low Risk 0.13; a network failure gives Error with confidence 0 |
| `BrowserStorage.GetItem` | heart-disease-predictor/app/result/page.tsx:15-16 | `getItem` gives the stored text, or null when the key was never set |
| `BrowserStorage.Written` | heart-disease-predictor/app/form/page.tsx:63-65 | the contents after a sequence of writes all went through, applied in order, last write of a key winning |
| `BrowserStorage.ApplyWrites` | heart-disease-predictor/app/form/page.tsx:63-65 | no writes leave the contents and report success; a refused first write leaves them and reports failure |
| `BrowserStorage.ApplyWritesStopsAtFirstRefusal` | heart-disease-predictor/app/form/page.tsx:63-74 | for some n the first n writes were each accepted, the contents are those n writes applied, and either all went through or write n was refused |
| `BrowserStorage.LocalStorage.Get` | heart-disease-predictor/app/result/page.tsx:15-16 | `getItem` throws exactly when storage access is blocked, and otherwise gives the stored text or null |
| `BrowserStorage.LocalStorage.SetItem` | heart-disease-predictor/app/form/page.tsx:63-65 | a write the browser takes replaces the key's value; a refused write throws and keeps the contents; each call is decided on its own key, value and contents |
| `FormPage.StepOf` | heart-disease-predictor/app/form/page.tsx:97-112 | every field is asked for by exactly one of the five steps |
| `FormPage.StepFields` | heart-disease-predictor/app/form/page.tsx:97-112 | the fields each step asks for; a step out of 1..5 asks for none |
| `FormPage.IsStepValid` | heart-disease-predictor/app/form/page.tsx:97-112 | a step is valid iff it is one of 1..5 and all of its required fields are non-empty; any other step value is invalid |
| `FormPage.EditOutsideStepKeepsValidity` | heart-disease-predictor/app/form/page.tsx:97-112 | editing a field of another step does not change a step's validity |
| `FormPage.AllStepsValidIffComplete` | heart-disease-predictor/app/form/page.tsx:97-112 | all five steps are valid iff no field is empty |
| `FormPage.Moved` | heart-disease-predictor/app/form/page.tsx:34-44 | next raises the step by exactly one iff it is below 5, otherwise leaves it; prev lowers it by exactly one iff it is above 1 |
| `FormPage.Navigate` | heart-disease-predictor/app/form/page.tsx:34-44 | the step after a sequence of presses, each applied as `Moved` says |
| `FormPage.NavigateStaysInRange` | heart-disease-predictor/app/form/page.tsx:34-44 | from a step in [1, 5], any sequence of next and prev stays in [1, 5] |
| `FormPage.RepeatedMovesSaturate` | heart-disease-predictor/app/form/page.tsx:34-44 | n presses of next reach min(step + n, 5); n presses of prev reach max(step − n, 1) |
| `FormPage.ProgressPercentage` | heart-disease-predictor/app/form/page.tsx:79 | the progress is 20 × step, between 20 and 100 on steps 1..5 |
| `FormPage.ProgressLabel` | heart-disease-predictor/app/form/page.tsx:484 | the rounded "% Complete" figure is exactly 20 × step |
| `FormPage.IndicatorOf` | heart-disease-predictor/app/form/page.tsx:498-509 | indicator i is completed iff i < step, current iff i = step, pending iff i > step |
| `FormPage.IndicatorRow` | heart-disease-predictor/app/form/page.tsx:498-511 | the circles for steps 1..n: n of them, circle i + 1 at index i |
| `FormPage.Indicators` | heart-disease-predictor/app/form/page.tsx:498 | the row drawn has one circle per step, five in all, in step order |
| `FormPage.IndicatorRowCounts` | heart-disease-predictor/app/form/page.tsx:498-511 | among indicators 1..n, step − 1 (at most n) are completed and at most one is current |
| `FormPage.IndicatorsOfStepInRange` | heart-disease-predictor/app/form/page.tsx:498-511 | on a step in 1..5 there are five indicators: one current, step − 1 completed, 5 − step pending |
| `FormPage.PredictionCode` | heart-disease-predictor/app/form/page.tsx:55 | the stored code is 0 or 1, and is 1 iff the client result is High Risk (Low Risk and Error both give 0) |
| `FormPage.StoredItems` | heart-disease-predictor/app/form/page.tsx:62-66 | after all three writes the prediction key holds the code's text, the probability key the confidence's text and the results key the JSON record; other keys are kept |
| `FormPage.SubmitWrites` | heart-disease-predictor/app/form/page.tsx:63-65 | the writes in the code's order: the code's text, the confidence's text, the JSON record |
| `FormPage.SubmitWritesStopEarly` | heart-disease-predictor/app/form/page.tsx:63-74 | a refused write leaves storage unchanged, with only the new code, or with the new code and probability; success iff all three were taken, and then storage is `StoredItems` |
| `FormPage.Wizard.constructor` | heart-disease-predictor/app/form/page.tsx:10-28 | a session starts on step 1, not analyzing, with an empty form |
| `FormPage.Wizard.HandleChange` | heart-disease-predictor/app/form/page.tsx:30-32 | the form becomes the old form with the one field replaced |
| `FormPage.Wizard.HandleNext` | heart-disease-predictor/app/form/page.tsx:34-38 | moves the step forward as `Moved` says, without checking validity |
| `FormPage.Wizard.HandlePrev` | heart-disease-predictor/app/form/page.tsx:40-44 | moves the step back as `Moved` says |
| `FormPage.Wizard.NextOffered` | heart-disease-predictor/app/form/page.tsx:538 | Next is rendered below step 5 |
| `FormPage.Wizard.NextEnabled` | heart-disease-predictor/app/form/page.tsx:547 | Next is enabled when it is rendered and the step is valid |
| `FormPage.Wizard.PrevEnabled` | heart-disease-predictor/app/form/page.tsx:461 | both Previous controls are disabled on step 1 only |
| `FormPage.Wizard.SubmitOffered` | heart-disease-predictor/app/form/page.tsx:538 | Complete Assessment is rendered where Next is not, on step 5 |
| `FormPage.Wizard.SubmitEnabled` | heart-disease-predictor/app/form/page.tsx:558 | Complete Assessment is enabled when rendered, with a valid step and no outstanding submission |
| `FormPage.Wizard.Edit` | heart-disease-predictor/app/form/page.tsx:114-444 | editing a field rendered on the current step keeps the invariant that all earlier steps are valid |
| `FormPage.Wizard.PressNext` | heart-disease-predictor/app/form/page.tsx:538-553 | Next can be pressed only below step 5 with a valid step; it advances by one and keeps the invariant |
| `FormPage.Wizard.PressPrev` | heart-disease-predictor/app/form/page.tsx:525-535 | Previous can be pressed only off step 1; it goes back by one and keeps the invariant |
| `FormPage.Wizard.StartSubmit` | heart-disease-predictor/app/form/page.tsx:46-47 | the analyzing flag is raised first, which disables Complete Assessment |
| `FormPage.Wizard.FinishSubmit` | heart-disease-predictor/app/form/page.tsx:51-75 | the three writes run in order until one throws, as `ApplyWrites` says; the flag stays up and the page navigates iff none threw, and then storage holds all three keys |
| `FormPage.Wizard.HandleSubmit` | heart-disease-predictor/app/form/page.tsx:46-76 | the whole submission: prediction as `GetPrediction` promises, then the writes of that result and the flag as `FinishSubmit` promises |
| `FormPage.Wizard.PressSubmit` | heart-disease-predictor/app/form/page.tsx:555-564 | Complete Assessment can be pressed only on step 5 when it is valid and no submission is outstanding; by then every field is non-empty |
| `ResultPage.Loaded` | heart-disease-predictor/app/result/page.tsx:14-24 | both values are set, or neither; they are set iff both keys hold non-empty text, and then are the parsed texts |
| `ResultPage.Truthy` | heart-disease-predictor/app/result/page.tsx:18 | a `getItem` result counts as present when it is non-null and non-empty |
| `ResultPage.BothStored` | heart-disease-predictor/app/result/page.tsx:18 | `result && prob` holds iff both keys are stored with non-empty text |
| `ResultPage.RiskLevel` | heart-disease-predictor/app/result/page.tsx:26-30 | null gives Unknown, exactly 1 gives High Risk, any other number (NaN included) gives Low Risk |
| `ResultPage.RiskColor` | heart-disease-predictor/app/result/page.tsx:32-36 | gray iff there is no prediction, red iff it is exactly 1, green for any other number |
| `ResultPage.HeartColor` | heart-disease-predictor/app/result/page.tsx:38-42 | the gray, red or green gradient on the same null / 1 / other split |
| `ResultPage.ColoursFollowRiskLevel` | heart-disease-predictor/app/result/page.tsx:32-42 | the text colour and the heart gradient follow the same null / 1 / other split as the label |
| `ResultPage.Advice` | heart-disease-predictor/app/result/page.tsx:44-51 | 1 gives the high-risk text, 0 the low-risk text, anything else (null, NaN, other numbers) the generic text |
| `ResultPage.AdviceMatchesLevelOnCodes` | heart-disease-predictor/app/result/page.tsx:44-51 | for null, 0 and 1 the advice matches the label |
| `ResultPage.AdviceDisagreesElsewhere` | heart-disease-predictor/app/result/page.tsx:44-51 | for any other number the label is Low Risk but the advice is generic |
| `ResultPage.ConfidencePercentage` | heart-disease-predictor/app/result/page.tsx:53-56 | null gives 0; a finite confidence gives round(confidence × 100); NaN and infinities pass through |
| `ResultPage.PercentageOfProbability` | heart-disease-predictor/app/result/page.tsx:53-56 | a confidence in [0, 1] gives a whole number in [0, 100], within half a point of the exact percentage |
| `ResultPage.PercentageExample` | heart-disease-predictor/app/result/page.tsx:55 | 0.756 is shown as 76 |
| `ResultPage.ResultView.constructor` | heart-disease-predictor/app/result/page.tsx:10-12 | the page starts loading, with both values null |
| `ResultPage.ResultView.LoadFromStorage` | heart-disease-predictor/app/result/page.tsx:14-24 | a blocked storage throws at the first read and leaves the state, loading included, as it was; otherwise loading ends, and the values are set only when both keys are stored |
| `ResultPage.Mount` | heart-disease-predictor/app/result/page.tsx:10-24 | after mounting, the page state is what `Loaded` gives for the storage contents; a blocked storage leaves its `loading` state set, with both values null |
| `Handoff.CodeReadsBack` | heart-disease-predictor/app/form/page.tsx:63 | the text stored for a code is non-empty and, with a `parseInt` that reads "0" and "1", reads back as the code |
| `Handoff.StorageRoundTrip` | heart-disease-predictor/app/form/page.tsx:63-64 | the result page reads back the stored 0/1 code and the confidence, both non-null, when `parseInt` reads "0" and "1" and `toString`/`parseFloat` read back that one confidence |
| `Handoff.DisplayAfterSubmit` | heart-disease-predictor/app/result/page.tsx:15-56 | after a submission the page shows High Risk iff the client said High Risk, and the matching advice, with the rounded confidence |
| `Handoff.ErrorShownAsLowRisk` | heart-disease-predictor/app/form/page.tsx:54-56 | an Error result reaches the result page as Low Risk with the low-risk advice at 0%, when 0 reads back |
| `Handoff.StaleProbabilityAfterRefusedWrite` | heart-disease-predictor/app/form/page.tsx:63-74 | when the probability write is refused after the code was stored, the page does not navigate and the result page would read the new code with the earlier probability |
| `Handoff.FillWizard` | heart-disease-predictor/app/form/page.tsx:538-558 | answering each step and pressing Next four times reaches step 5 with Complete Assessment enabled |
| `Handoff.UnreachablePredictorSession` | heart-disease-predictor/app/form/page.tsx:46-76 | a complete session against an unreachable predictor ends with the result page showing Low Risk at 0% |

## Left out

- The content of the third storage key (`heartAssessmentResults`): `JSON.stringify` of the form record and the ISO timestamp of the clock. Its text is the parameter `serialize`; nothing reads it back.
- The `typeof window !== 'undefined'` guard: the page is a client component, so the writes always run.
- The size of the storage quota: a write may be refused depending on its key, its value and the current contents, but no limit is computed. A blocked storage is one whose reads throw for the page's whole lifetime (`readable`).
- `router.push`, `alert` and `console` logging: navigation is the `navigated` result of the submit methods; the alert and the logging are not modelled.
- React's handling of an exception thrown from an effect (the error boundary, unmounting): the model stops at the throw and only records that `loading` stays set.
- `async`/`await` scheduling and React's batched state updates: each handler is one atomic method, and the outstanding request is the gap between `StartSubmit` and `FinishSubmit`.
- The request itself: the URL, the headers and the JSON encoding of the vector (JSON turns an infinity into `null`). `fetch` is a function of the vector.
- The concrete grammar of `parseFloat`, `parseInt` and `Number.prototype.toString`, and IEEE-754 rounding. They are parameters, and finite numbers are exact reals.
- Api.Classify: a `prediction` or `risk_probability` that is present but not a number (a string, say) is treated as absent. For `risk_probability` this is weaker than the code, whose `||` would pass a truthy non-number through unchanged.
- The `'Unknown error occurred'` message for a thrown value that is not an `Error`: every failure in the model throws an `Error`.
- Rendering: JSX, CSS class strings other than the two colour mappings, icons, step titles, the check-mark text of completed indicators, and the loading spinner.
- The landing page and about page (static content), and the result page's links back to the form.
- The Python side (training script and the prediction endpoint). It sits behind `fetch` and is not part of this model.
