/**
 * The prediction client: turns the form into the thirteen-number feature
 * vector, refuses to call the predictor when an entry is not a number, and
 * normalises whatever the predictor (or the network) answers into one record
 * `{ result, confidence, error }`. The call never throws: every failure becomes
 * an `Error` result with confidence 0.
 *
 * `parseFloat` and `fetch` are parameters: the model assumes of them only what
 * the lemmas state in their `requires` clauses.
 */
module Api {
  import opened JsValues
  import opened FormFields

  /** The order of the features the predictor expects. */
  const FieldOrder: seq<Field> :=
    [Age, Gender, ChestPain, RestingBP, Cholesterol, FastingBS,
     Ecg, MaxHR, Angina, StDepression, Slope, Vessels, Thal]

  /** Where field `f` sits in the feature vector. */
  function Position(f: Field): (i: nat)
    ensures i < |FieldOrder| && FieldOrder[i] == f
  {
    match f
    case Age => 0
    case Gender => 1
    case ChestPain => 2
    case RestingBP => 3
    case Cholesterol => 4
    case FastingBS => 5
    case Ecg => 6
    case MaxHR => 7
    case Angina => 8
    case StDepression => 9
    case Slope => 10
    case Vessels => 11
    case Thal => 12
  }

  /** Every field appears exactly once in the feature order. */
  lemma FieldOrderIsPermutation()
    ensures |FieldOrder| == 13
    ensures forall f :: f in FieldOrder
    ensures forall i, j :: 0 <= i < j < |FieldOrder| ==> FieldOrder[i] != FieldOrder[j]
  {
    forall f ensures f in FieldOrder {
      var i := Position(f);
    }
  }

  /** The feature vector: each field parsed with `parseFloat`, in `FieldOrder`. */
  function Features(form: Form, parseFloat: string -> Number): (v: seq<Number>)
    ensures |v| == |FieldOrder| == 13
    ensures forall i :: 0 <= i < |v| ==> v[i] == parseFloat(form.Get(FieldOrder[i]))
  {
    [parseFloat(form.age), parseFloat(form.gender), parseFloat(form.chestPain),
     parseFloat(form.restingBP), parseFloat(form.cholesterol), parseFloat(form.fastingBS),
     parseFloat(form.ecg), parseFloat(form.maxHR), parseFloat(form.angina),
     parseFloat(form.stDepression), parseFloat(form.slope), parseFloat(form.vessels),
     parseFloat(form.thal)]
  }

  /** `features.some(isNaN)`, scanning from the front. */
  predicate SomeNaN(v: seq<Number>)
    decreases |v|
  {
    v != [] && (v[0].NaN? || SomeNaN(v[1..]))
  }

  /** The scan finds an entry that is not a number exactly when there is one. */
  lemma {:induction false} SomeNaNExactly(v: seq<Number>)
    ensures SomeNaN(v) <==> exists i :: 0 <= i < |v| && v[i].NaN?
    decreases |v|
  {
    if v != [] {
      SomeNaNExactly(v[1..]);
      if exists i :: 0 <= i < |v| && v[i].NaN? {
        var i :| 0 <= i < |v| && v[i].NaN?;
        if i > 0 {
          assert v[1..][i - 1].NaN?;
        }
      }
      if SomeNaN(v[1..]) {
        var j :| 0 <= j < |v[1..]| && v[1..][j].NaN?;
        assert v[j + 1].NaN?;
      }
    }
  }

  /** The vector is refused exactly when some field, whichever, parses to not-a-number. */
  lemma RejectedIffSomeFieldNaN(form: Form, parseFloat: string -> Number)
    ensures SomeNaN(Features(form, parseFloat)) <==> exists f :: parseFloat(form.Get(f)).NaN?
  {
    var v := Features(form, parseFloat);
    SomeNaNExactly(v);
    if exists f :: parseFloat(form.Get(f)).NaN? {
      var f :| parseFloat(form.Get(f)).NaN?;
      assert v[Position(f)].NaN?;
    }
  }

  /** With a `parseFloat` that, like JavaScript's, reads "" as not-a-number, an unanswered field is refused. */
  lemma EmptyFieldIsRejected(form: Form, parseFloat: string -> Number, f: Field)
    requires parseFloat("") == NaN
    requires form.Get(f) == ""
    ensures SomeNaN(Features(form, parseFloat))
  {
    RejectedIffSomeFieldNaN(form, parseFloat);
  }

  /** The code only tests for not-a-number: a field that parses to an infinity passes the check. */
  lemma InfinityIsAccepted(form: Form, parseFloat: string -> Number, f: Field)
    requires parseFloat(form.Get(f)).Infinity?
    requires forall g :: g != f ==> parseFloat(form.Get(g)).Finite?
    ensures !SomeNaN(Features(form, parseFloat))
    ensures exists i :: 0 <= i < 13 && Features(form, parseFloat)[i].Infinity?
  {
    RejectedIffSomeFieldNaN(form, parseFloat);
    assert Features(form, parseFloat)[Position(f)].Infinity?;
  }

  /** What the predictor's body turned out to be. */
  datatype Body =
    | Object(prediction: Option<real>, riskProbability: Option<real>)  // a JSON object; a field absent, null or not a number is None
    | Unparsable(message: string)                                     // `response.json()` or the field access threw

  /** What the single `fetch` attempt produced. */
  datatype FetchOutcome =
    | NetworkFailure(message: string)  // the request was rejected (connection refused, CORS, ...)
    | Response(status: nat, body: Body)

  /** `response.ok`: a 2xx status. */
  predicate Ok(status: nat) {
    200 <= status <= 299
  }

  datatype Label = HighRisk | LowRisk | Error

  /** The record `getPrediction` resolves to; `error` is present only on the error path. */
  datatype Prediction = Prediction(result: Label, confidence: real, error: Option<string>)

  /** The shape every result has: a message exactly for errors, and confidence 0 on errors. */
  predicate WellFormed(p: Prediction) {
    (p.result == Error <==> p.error.Some?) && (p.result == Error ==> p.confidence == 0.0)
  }

  const InvalidInputMessage: string := "Invalid input data: some fields contain non-numeric values"
  const HttpErrorPrefix: string := "HTTP error! status: "

  function HttpErrorMessage(status: nat): string {
    HttpErrorPrefix + DecimalString(status)
  }

  /** The status can be read back from the message of an HTTP error. */
  lemma HttpErrorMessageCarriesStatus(status: nat)
    ensures HttpErrorPrefix <= HttpErrorMessage(status)
    ensures IsDigits(HttpErrorMessage(status)[|HttpErrorPrefix|..])
    ensures DecimalValue(HttpErrorMessage(status)[|HttpErrorPrefix|..]) == status
  {
    assert HttpErrorMessage(status)[|HttpErrorPrefix|..] == DecimalString(status);
    DecimalRoundTrip(status);
  }

  /** Different statuses give different messages, so the message identifies the status. */
  lemma HttpErrorMessageIdentifiesStatus(a: nat, b: nat)
    requires HttpErrorMessage(a) == HttpErrorMessage(b)
    ensures a == b
  {
    assert HttpErrorMessage(a)[|HttpErrorPrefix|..] == DecimalString(a);
    assert HttpErrorMessage(b)[|HttpErrorPrefix|..] == DecimalString(b);
    DecimalStringInjective(a, b);
  }

  /** The catch block: an error result carrying the thrown error's message. */
  function Failed(message: string): (p: Prediction)
    ensures WellFormed(p) && p.result == Error && p.error == Some(message)
  {
    Prediction(Error, 0.0, Some(message))
  }

  /** The success path: class 1 is high risk, anything else low; `risk_probability || 0`. */
  function Classify(prediction: Option<real>, riskProbability: Option<real>): (p: Prediction)
    ensures WellFormed(p) && p.result != Error
    ensures p.result == HighRisk <==> prediction == Some(1.0)
    ensures riskProbability.None? ==> p.confidence == 0.0
    ensures riskProbability.Some? ==> p.confidence == riskProbability.value
  {
    Prediction(
      if prediction == Some(1.0) then HighRisk else LowRisk,
      if riskProbability.Some? && riskProbability.value != 0.0 then riskProbability.value else 0.0,
      None)
  }

  /** The result for one fetch outcome: success only for a 2xx status with a readable object. */
  function Respond(outcome: FetchOutcome): (p: Prediction)
    ensures WellFormed(p)
    ensures p.result != Error <==> outcome.Response? && Ok(outcome.status) && outcome.body.Object?
    ensures outcome.NetworkFailure? ==> p.error == Some(outcome.message)
    ensures outcome.Response? && !Ok(outcome.status) ==> p.error == Some(HttpErrorMessage(outcome.status))
    ensures outcome.Response? && Ok(outcome.status) && outcome.body.Unparsable? ==> p.error == Some(outcome.body.message)
    ensures outcome.Response? && Ok(outcome.status) && outcome.body.Object? ==>
              p == Classify(outcome.body.prediction, outcome.body.riskProbability)
  {
    match outcome
    case NetworkFailure(message) => Failed(message)
    case Response(status, body) =>
      if !Ok(status) then Failed(HttpErrorMessage(status))
      else match body
        case Unparsable(message) => Failed(message)
        case Object(prediction, riskProbability) => Classify(prediction, riskProbability)
  }

  /** A predictor that reports probabilities in [0, 1] yields a confidence in [0, 1], on every path. */
  lemma ConfidenceInUnitInterval(outcome: FetchOutcome)
    requires outcome.Response? && outcome.body.Object? && outcome.body.riskProbability.Some?
             ==> 0.0 <= outcome.body.riskProbability.value <= 1.0
    ensures 0.0 <= Respond(outcome).confidence <= 1.0
  {
  }

  /**
   * `getPrediction`: builds the vector, returns the invalid-input error without
   * a request when some entry is not a number, otherwise sends the vector once
   * and normalises the outcome. `request` is the payload sent, if any.
   */
  method GetPrediction(form: Form, parseFloat: string -> Number, fetch: seq<Number> -> FetchOutcome)
    returns (p: Prediction, request: Option<seq<Number>>)
    ensures WellFormed(p)
    ensures request.None? <==> exists f :: parseFloat(form.Get(f)).NaN?
    ensures request.None? ==> p == Failed(InvalidInputMessage)
    ensures request.Some? ==> request.value == Features(form, parseFloat) && p == Respond(fetch(request.value))
  {
    var features := Features(form, parseFloat);
    RejectedIffSomeFieldNaN(form, parseFloat);
    if SomeNaN(features) {
      p, request := Failed(InvalidInputMessage), None;
      return;
    }
    request := Some(features);
    var outcome := fetch(features);
    p := Respond(outcome);
  }

  /** The sample responses (1, 0.82) and (0, 0.13), and a network failure. */
  lemma RespondExamples()
    ensures Respond(Response(200, Object(Some(1.0), Some(0.82)))) == Prediction(HighRisk, 0.82, None)
    ensures Respond(Response(200, Object(Some(0.0), Some(0.13)))) == Prediction(LowRisk, 0.13, None)
    ensures Respond(NetworkFailure("Failed to fetch")).result == Error
    ensures Respond(NetworkFailure("Failed to fetch")).confidence == 0.0
  {
  }
}
