/**
 * The result page: on mount it reads the stored code and probability back
 * (both or neither), then derives the risk label, two colour classes, an
 * advice text and a rounded confidence percentage from them.
 *
 * `parseInt` and `parseFloat` are parameters; the lemmas that need a fact
 * about them state it in `requires`.
 */
module ResultPage {
  import opened JsValues
  import opened BrowserStorage

  /** JavaScript truthiness of what `getItem` returned: present and not the empty string. */
  predicate Truthy(s: Nullable<string>) {
    s.NonNull? && s.value != ""
  }

  /** `result && prob`: both keys read back as truthy text. */
  predicate BothStored(items: map<string, string>)
    ensures BothStored(items) <==>
              && PredictionKey in items && items[PredictionKey] != ""
              && ProbabilityKey in items && items[ProbabilityKey] != ""
  {
    Truthy(GetItem(items, PredictionKey)) && Truthy(GetItem(items, ProbabilityKey))
  }

  /** The prediction and confidence the mount effect sets, or `null` for both when either key is missing or empty. */
  function Loaded(items: map<string, string>, parseInt: string -> Number, parseFloat: string -> Number)
    : (r: (Nullable<Number>, Nullable<Number>))
    ensures r.0.NonNull? <==> r.1.NonNull?
    ensures r.0.NonNull? <==> BothStored(items)
    ensures r.0.NonNull? ==> r.0.value == parseInt(items[PredictionKey]) && r.1.value == parseFloat(items[ProbabilityKey])
  {
    if BothStored(items) then (NonNull(parseInt(items[PredictionKey])), NonNull(parseFloat(items[ProbabilityKey])))
    else (Null, Null)
  }

  const UnknownLevel: string := "Unknown"
  const HighLevel: string := "High Risk"
  const LowLevel: string := "Low Risk"

  /** `prediction === 1`. */
  predicate IsOne(prediction: Nullable<Number>) {
    prediction == NonNull(Finite(1.0))
  }

  /** `getRiskLevel`: unknown without a prediction, high for 1, low for any other number (NaN included). */
  function RiskLevel(prediction: Nullable<Number>): (s: string)
    ensures s == UnknownLevel <==> prediction.Null?
    ensures s == HighLevel <==> IsOne(prediction)
    ensures s == LowLevel <==> prediction.NonNull? && !IsOne(prediction)
  {
    if prediction.Null? then UnknownLevel
    else if prediction == NonNull(Finite(1.0)) then HighLevel
    else LowLevel
  }

  const GrayText: string := "text-gray-600"
  const RedText: string := "text-red-600"
  const GreenText: string := "text-green-600"

  /** `getRiskColor`. */
  function RiskColor(prediction: Nullable<Number>): (s: string)
    ensures s == GrayText <==> prediction.Null?
    ensures s == RedText <==> IsOne(prediction)
    ensures s == GreenText <==> prediction.NonNull? && !IsOne(prediction)
  {
    if prediction.Null? then GrayText
    else if prediction == NonNull(Finite(1.0)) then RedText
    else GreenText
  }

  const GrayHeart: string := "from-gray-400 to-gray-500"
  const RedHeart: string := "from-red-400 to-red-500"
  const GreenHeart: string := "from-green-400 to-green-500"

  /** `getHeartColor`. */
  function HeartColor(prediction: Nullable<Number>): (s: string)
    ensures s == GrayHeart <==> prediction.Null?
    ensures s == RedHeart <==> IsOne(prediction)
    ensures s == GreenHeart <==> prediction.NonNull? && !IsOne(prediction)
  {
    if prediction.Null? then GrayHeart
    else if prediction == NonNull(Finite(1.0)) then RedHeart
    else GreenHeart
  }

  /** The text colour and the heart's gradient make the same three-way split as the label. */
  lemma ColoursFollowRiskLevel(prediction: Nullable<Number>)
    ensures RiskColor(prediction) == GrayText <==> RiskLevel(prediction) == UnknownLevel
    ensures RiskColor(prediction) == RedText <==> RiskLevel(prediction) == HighLevel
    ensures RiskColor(prediction) == GreenText <==> RiskLevel(prediction) == LowLevel
    ensures HeartColor(prediction) == GrayHeart <==> RiskLevel(prediction) == UnknownLevel
    ensures HeartColor(prediction) == RedHeart <==> RiskLevel(prediction) == HighLevel
    ensures HeartColor(prediction) == GreenHeart <==> RiskLevel(prediction) == LowLevel
  {
  }

  const HighAdvice: string := "Your assessment indicates a high risk of heart disease. It's advisable to consult with a healthcare professional for further evaluation and guidance."
  const LowAdvice: string := "Your assessment indicates a low risk of heart disease. Continue maintaining a healthy lifestyle and regular checkups."
  const GenericAdvice: string := "Please consult with a healthcare professional for proper evaluation."

  /** `getAdvice`: the high-risk text for 1, the low-risk text for 0, the generic text otherwise (null included). */
  function Advice(prediction: Nullable<Number>): (s: string)
    ensures s == HighAdvice <==> IsOne(prediction)
    ensures s == LowAdvice <==> prediction == NonNull(Finite(0.0))
    ensures s == GenericAdvice <==> !IsOne(prediction) && prediction != NonNull(Finite(0.0))
  {
    if prediction == NonNull(Finite(1.0)) then HighAdvice
    else if prediction == NonNull(Finite(0.0)) then LowAdvice
    else GenericAdvice
  }

  /** For no prediction, 0 and 1, the advice matches the label. */
  lemma AdviceMatchesLevelOnCodes(prediction: Nullable<Number>)
    requires prediction in {Null, NonNull(Finite(0.0)), NonNull(Finite(1.0))}
    ensures RiskLevel(prediction) == UnknownLevel <==> Advice(prediction) == GenericAdvice
    ensures RiskLevel(prediction) == HighLevel <==> Advice(prediction) == HighAdvice
    ensures RiskLevel(prediction) == LowLevel <==> Advice(prediction) == LowAdvice
  {
  }

  /** Any other number, NaN or 2 say, is labelled low risk but gets the generic advice. */
  lemma AdviceDisagreesElsewhere(prediction: Nullable<Number>)
    requires prediction.NonNull? && prediction.value != Finite(0.0) && prediction.value != Finite(1.0)
    ensures RiskLevel(prediction) == LowLevel
    ensures Advice(prediction) == GenericAdvice
  {
  }

  /** `getConfidencePercentage`: 0 without a confidence, otherwise `Math.round(confidence * 100)`. */
  function ConfidencePercentage(confidence: Nullable<Number>): (r: Number)
    ensures confidence.Null? ==> r == Finite(0.0)
    ensures confidence.NonNull? && confidence.value.Finite? ==>
              r.Finite? && r.value == Round(confidence.value.value * 100.0) as real
    ensures confidence.NonNull? && !confidence.value.Finite? ==> r == confidence.value
  {
    if confidence.Null? then Finite(0.0) else MathRound(Scale(confidence.value, 100.0))
  }

  /** A confidence in [0, 1] shows as a whole percentage in [0, 100], within half a point of the exact one. */
  lemma PercentageOfProbability(c: real)
    requires 0.0 <= c <= 1.0
    ensures ConfidencePercentage(NonNull(Finite(c))).Finite?
    ensures var p := ConfidencePercentage(NonNull(Finite(c))).value;
            0.0 <= p <= 100.0 && p.Floor as real == p && -0.5 < p - c * 100.0 <= 0.5
  {
    var n := Round(c * 100.0);
    assert ConfidencePercentage(NonNull(Finite(c))).value == n as real;
    assert 0 <= n <= 100;
  }

  /** 0.756 shows as 76%. */
  lemma PercentageExample()
    ensures ConfidencePercentage(NonNull(Finite(0.756))) == Finite(76.0)
  {
    assert Round(75.6) == 76;
  }

  /** The page's state: `loading` until the mount effect has run. */
  class ResultView {
    var prediction: Nullable<Number>
    var confidence: Nullable<Number>
    var loading: bool

    constructor ()
      ensures prediction == Null && confidence == Null && loading
    {
      prediction, confidence, loading := Null, Null, true;
    }

    /**
     * The mount effect: set both values when both keys are stored, then stop
     * loading whatever was found. When storage access is blocked the first
     * `getItem` throws, so nothing is set and the page stays loading.
     */
    method LoadFromStorage(storage: LocalStorage, parseInt: string -> Number, parseFloat: string -> Number)
      returns (threw: bool)
      modifies this
      ensures threw == !storage.readable
      ensures threw ==> loading == old(loading) && prediction == old(prediction) && confidence == old(confidence)
      ensures !threw ==> !loading
      ensures !threw && BothStored(storage.items) ==> (prediction, confidence) == Loaded(storage.items, parseInt, parseFloat)
      ensures !threw && !BothStored(storage.items) ==> prediction == old(prediction) && confidence == old(confidence)
    {
      var result;
      result, threw := storage.Get(PredictionKey);
      if threw {
        return;
      }
      var prob;
      prob, threw := storage.Get(ProbabilityKey);
      if Truthy(result) && Truthy(prob) {
        prediction := NonNull(parseInt(result.value));
        confidence := NonNull(parseFloat(prob.value));
      }
      loading := false;
    }
  }

  /** Mounting the page: fresh state, then the effect; a blocked storage leaves `loading` set with nothing else set. */
  method Mount(storage: LocalStorage, parseInt: string -> Number, parseFloat: string -> Number)
    returns (view: ResultView)
    ensures fresh(view)
    ensures view.loading <==> !storage.readable
    ensures storage.readable ==> (view.prediction, view.confidence) == Loaded(storage.items, parseInt, parseFloat)
    ensures !storage.readable ==> view.prediction == Null && view.confidence == Null
  {
    view := new ResultView();
    var threw := view.LoadFromStorage(storage, parseInt, parseFloat);
  }
}
