/**
 * The hand-off between the two pages: the form page writes the code and the
 * probability as text, the result page parses them back. With a `parseInt`
 * and a `parseFloat` that read back what `toString` printed, the result page
 * sees exactly the submitted result.
 */
module Handoff {
  import opened JsValues
  import opened FormFields
  import Api
  import opened BrowserStorage
  import opened FormPage
  import opened ResultPage

  /** `parseInt` reads the two codes the form page can store, "0" and "1", as the numbers 0 and 1. */
  predicate ReadsBackCodes(parseInt: string -> Number) {
    parseInt("0") == Finite(0.0) && parseInt("1") == Finite(1.0)
  }

  /** `toString` prints `x` as non-empty text, and `parseFloat` reads that text back as `x`. */
  predicate ReadsBack(show: real -> string, parseFloat: string -> Number, x: real) {
    show(x) != "" && parseFloat(show(x)) == Finite(x)
  }

  /** The text stored for a code reads back as that code. */
  lemma CodeReadsBack(parseInt: string -> Number, verdict: Api.Label)
    requires ReadsBackCodes(parseInt)
    ensures DecimalString(PredictionCode(verdict)) != ""
    ensures parseInt(DecimalString(PredictionCode(verdict))) == Finite(PredictionCode(verdict) as real)
  {
    assert DecimalString(0) == "0" && DecimalString(1) == "1";
  }

  /** What the form stored is what the result page loads: the 0/1 code and the confidence, both non-null. */
  lemma StorageRoundTrip(items: map<string, string>, result: Api.Prediction, show: real -> string, record: string,
                         parseInt: string -> Number, parseFloat: string -> Number)
    requires ReadsBackCodes(parseInt) && ReadsBack(show, parseFloat, result.confidence)
    ensures Loaded(StoredItems(items, result, show, record), parseInt, parseFloat)
            == (NonNull(Finite(PredictionCode(result.result) as real)), NonNull(Finite(result.confidence)))
  {
    CodeReadsBack(parseInt, result.result);
  }

  /** After a submission the result page shows the client's label when it is high or low risk, and its confidence. */
  lemma DisplayAfterSubmit(items: map<string, string>, result: Api.Prediction, show: real -> string, record: string,
                           parseInt: string -> Number, parseFloat: string -> Number)
    requires ReadsBackCodes(parseInt) && ReadsBack(show, parseFloat, result.confidence)
    ensures var (p, c) := Loaded(StoredItems(items, result, show, record), parseInt, parseFloat);
            && (RiskLevel(p) == HighLevel <==> result.result == Api.HighRisk)
            && (RiskLevel(p) == LowLevel <==> result.result != Api.HighRisk)
            && Advice(p) == (if result.result == Api.HighRisk then HighAdvice else LowAdvice)
            && ConfidencePercentage(c) == Finite(Round(result.confidence * 100.0) as real)
  {
    StorageRoundTrip(items, result, show, record, parseInt, parseFloat);
  }

  /**
   * A failed prediction is stored like a low-risk one with probability 0, so
   * the result page labels it "Low Risk", gives the low-risk advice and shows 0%.
   */
  lemma ErrorShownAsLowRisk(items: map<string, string>, result: Api.Prediction, show: real -> string, record: string,
                            parseInt: string -> Number, parseFloat: string -> Number)
    requires ReadsBackCodes(parseInt) && ReadsBack(show, parseFloat, 0.0)
    requires Api.WellFormed(result) && result.result == Api.Error
    ensures var (p, c) := Loaded(StoredItems(items, result, show, record), parseInt, parseFloat);
            RiskLevel(p) == LowLevel && Advice(p) == LowAdvice && ConfidencePercentage(c) == Finite(0.0)
  {
    StorageRoundTrip(items, result, show, record, parseInt, parseFloat);
    assert Round(0.0 * 100.0) == 0;
  }

  /**
   * When the probability write throws after the code was stored, the page does
   * not navigate, yet storage pairs the new code with the probability an
   * earlier submission left; a later visit to the result page shows that mix.
   */
  lemma StaleProbabilityAfterRefusedWrite(accepts: Acceptance, items: map<string, string>, result: Api.Prediction,
                                          show: real -> string, record: string,
                                          parseInt: string -> Number, parseFloat: string -> Number)
    requires ReadsBackCodes(parseInt)
    requires accepts(items, PredictionKey, DecimalString(PredictionCode(result.result)))
    requires !accepts(items[PredictionKey := DecimalString(PredictionCode(result.result))],
                      ProbabilityKey, show(result.confidence))
    requires ProbabilityKey in items && items[ProbabilityKey] != ""
    ensures var (r, ok) := ApplyWrites(accepts, items, SubmitWrites(result, show, record));
            && !ok
            && Loaded(r, parseInt, parseFloat)
               == (NonNull(Finite(PredictionCode(result.result) as real)), NonNull(parseFloat(items[ProbabilityKey])))
  {
    SubmitWritesStopEarly(accepts, items, result, show, record);
    CodeReadsBack(parseInt, result.result);
  }

  /** The user answers the questions on screen from `answers`; the step shown stays the same. */
  method AnswerStep(wizard: Wizard, answers: Form)
    requires wizard.Reachable()
    modifies wizard`form
    ensures wizard.Reachable() && wizard.currentStep == old(wizard.currentStep)
    ensures forall f :: f in StepFields(wizard.currentStep) ==> wizard.form.Get(f) == answers.Get(f)
  {
    match wizard.currentStep
    case 1 =>
      wizard.Edit(Age, answers.age);
      wizard.Edit(Gender, answers.gender);
    case 2 =>
      wizard.Edit(ChestPain, answers.chestPain);
      wizard.Edit(Angina, answers.angina);
    case 3 =>
      wizard.Edit(RestingBP, answers.restingBP);
      wizard.Edit(Cholesterol, answers.cholesterol);
      wizard.Edit(FastingBS, answers.fastingBS);
    case 4 =>
      wizard.Edit(Ecg, answers.ecg);
      wizard.Edit(MaxHR, answers.maxHR);
      wizard.Edit(StDepression, answers.stDepression);
    case 5 =>
      wizard.Edit(Slope, answers.slope);
      wizard.Edit(Vessels, answers.vessels);
      wizard.Edit(Thal, answers.thal);
  }

  /** A fresh wizard filled in from `answers` step by step, pressing Next after each of the first four. */
  method FillWizard(answers: Form) returns (wizard: Wizard)
    requires forall f :: answers.Get(f) != ""
    ensures fresh(wizard) && wizard.Reachable() && wizard.SubmitEnabled()
  {
    wizard := new Wizard();
    while wizard.currentStep < TotalSteps
      invariant wizard.Reachable() && !wizard.isAnalyzing
      invariant fresh(wizard)
      decreases TotalSteps - wizard.currentStep
    {
      AnswerStep(wizard, answers);
      wizard.PressNext();
    }
    AnswerStep(wizard, answers);
  }

  /**
   * A whole session against an unreachable predictor: fill in every step,
   * press Complete Assessment; the storage accepts the writes and the result
   * page then reads "Low Risk" at 0%.
   */
  method UnreachablePredictorSession(answers: Form, message: string, show: real -> string,
                                     parseFloat: string -> Number, parseInt: string -> Number,
                                     serialize: (Api.Prediction, Form) -> string)
    returns (level: string, percent: Number)
    requires forall f :: answers.Get(f) != ""
    requires ReadsBackCodes(parseInt) && ReadsBack(show, parseFloat, 0.0)
    ensures level == LowLevel && percent == Finite(0.0)
  {
    var wizard := FillWizard(answers);
    var storage := new LocalStorage(map[], (items: map<string, string>, key: string, value: string) => true, true);
    var unreachable := (request: seq<Number>) => Api.NetworkFailure(message);
    var result, request, navigated := wizard.PressSubmit(storage, parseFloat, unreachable, show, serialize);
    assert request.Some? ==> unreachable(request.value).NetworkFailure?;
    SubmitWritesStopEarly(storage.accepts, map[], result, show, serialize(result, wizard.form));
    var view := Mount(storage, parseInt, parseFloat);
    ErrorShownAsLowRisk(map[], result, show, serialize(result, wizard.form), parseInt, parseFloat);
    level, percent := RiskLevel(view.prediction), ConfidencePercentage(view.confidence);
  }
}
