/**
 * The assessment wizard: five steps of inputs, a step counter moved by
 * Previous and Next, a per-step completeness test that enables the buttons,
 * and a submission that asks the prediction client for a result, stores it for
 * the result page and navigates there.
 *
 * The raw handlers (`HandleChange`, `HandleNext`, `HandlePrev`, `HandleSubmit`)
 * check no validity; `HandleNext` and `HandlePrev` only keep the step in
 * 1..5. What keeps them in line is the page: a button
 * that is disabled cannot be pressed and only the current step's inputs are
 * on screen. The `Press...` and `Edit` methods are those user actions, with the
 * page's conditions as preconditions.
 */
module FormPage {
  import opened JsValues
  import opened FormFields
  import Api
  import opened BrowserStorage

  const TotalSteps: int := 5

  /** The fields whose inputs step `step` shows and requires; no fields for any other value. */
  function StepFields(step: int): (fields: set<Field>)
    ensures fields != {} <==> 1 <= step <= TotalSteps
  {
    if step == 1 then {Age, Gender}
    else if step == 2 then {ChestPain, Angina}
    else if step == 3 then {RestingBP, Cholesterol, FastingBS}
    else if step == 4 then {Ecg, MaxHR, StDepression}
    else if step == 5 then {Slope, Vessels, Thal}
    else {}
  }

  /** The step that asks for `f`: each field belongs to exactly one of the five steps. */
  function StepOf(f: Field): (k: int)
    ensures 1 <= k <= TotalSteps && f in StepFields(k)
    ensures forall j :: f in StepFields(j) ==> j == k
  {
    match f
    case Age | Gender => 1
    case ChestPain | Angina => 2
    case RestingBP | Cholesterol | FastingBS => 3
    case Ecg | MaxHR | StDepression => 4
    case Slope | Vessels | Thal => 5
  }

  /** `isStepValid`: the step is one of the five and each of its fields is a non-empty string. */
  function IsStepValid(step: int, form: Form): (valid: bool)
    ensures valid <==> 1 <= step <= TotalSteps && forall f :: f in StepFields(step) ==> form.Get(f) != ""
  {
    match step
    case 1 =>
      assert Age in StepFields(1) && Gender in StepFields(1);
      form.age != "" && form.gender != ""
    case 2 =>
      assert ChestPain in StepFields(2) && Angina in StepFields(2);
      form.chestPain != "" && form.angina != ""
    case 3 =>
      assert RestingBP in StepFields(3) && Cholesterol in StepFields(3) && FastingBS in StepFields(3);
      form.restingBP != "" && form.cholesterol != "" && form.fastingBS != ""
    case 4 =>
      assert Ecg in StepFields(4) && MaxHR in StepFields(4) && StDepression in StepFields(4);
      form.ecg != "" && form.maxHR != "" && form.stDepression != ""
    case 5 =>
      assert Slope in StepFields(5) && Vessels in StepFields(5) && Thal in StepFields(5);
      form.slope != "" && form.vessels != "" && form.thal != ""
    case _ => false
  }

  /** Editing a field another step asks for does not change whether this step is valid. */
  lemma EditOutsideStepKeepsValidity(step: int, form: Form, f: Field, value: string)
    requires f !in StepFields(step)
    ensures IsStepValid(step, form.Set(f, value)) == IsStepValid(step, form)
  {
    var edited := form.Set(f, value);
    assert forall g :: g in StepFields(step) ==> edited.Get(g) == form.Get(g);
  }

  /** All five steps are valid exactly when no field of the form is empty. */
  lemma AllStepsValidIffComplete(form: Form)
    ensures (forall k :: 1 <= k <= TotalSteps ==> IsStepValid(k, form)) <==> (forall f :: form.Get(f) != "")
  {
    if forall k :: 1 <= k <= TotalSteps ==> IsStepValid(k, form) {
      forall f ensures form.Get(f) != "" {
        assert IsStepValid(StepOf(f), form);
      }
    }
  }

  datatype Move = Next | Prev

  /** The step after `handleNext` or `handlePrev`: one step at a time, never beyond 5 or below 1. */
  function Moved(step: int, m: Move): (r: int)
    ensures m == Next ==> step <= r <= step + 1 && (r == step + 1 <==> step < TotalSteps)
    ensures m == Prev ==> step - 1 <= r <= step && (r == step - 1 <==> step > 1)
  {
    match m
    case Next => if step < TotalSteps then step + 1 else step
    case Prev => if step > 1 then step - 1 else step
  }

  /** The step after a sequence of moves. */
  function Navigate(step: int, moves: seq<Move>): int
    decreases |moves|
  {
    if moves == [] then step else Navigate(Moved(step, moves[0]), moves[1..])
  }

  /** Whatever the moves, a step in [1, 5] stays in [1, 5]. */
  lemma {:induction false} NavigateStaysInRange(step: int, moves: seq<Move>)
    requires 1 <= step <= TotalSteps
    ensures 1 <= Navigate(step, moves) <= TotalSteps
    decreases |moves|
  {
    if moves != [] {
      NavigateStaysInRange(Moved(step, moves[0]), moves[1..]);
    }
  }

  function Repeat(m: Move, n: nat): (r: seq<Move>)
    ensures |r| == n && forall i :: 0 <= i < n ==> r[i] == m
  {
    if n == 0 then [] else [m] + Repeat(m, n - 1)
  }

  /** `n` presses of Next stop at step 5; `n` presses of Previous stop at step 1. */
  lemma {:induction false} RepeatedMovesSaturate(step: int, n: nat)
    requires 1 <= step <= TotalSteps
    ensures Navigate(step, Repeat(Next, n)) == if step + n <= TotalSteps then step + n else TotalSteps
    ensures Navigate(step, Repeat(Prev, n)) == if step - n >= 1 then step - n else 1
    decreases n
  {
    if n > 0 {
      RepeatedMovesSaturate(Moved(step, Next), n - 1);
      RepeatedMovesSaturate(Moved(step, Prev), n - 1);
      assert Repeat(Next, n)[1..] == Repeat(Next, n - 1);
      assert Repeat(Prev, n)[1..] == Repeat(Prev, n - 1);
    }
  }

  /** `progressPercentage = (currentStep / totalSteps) * 100`: 20% per step. */
  function ProgressPercentage(step: int): (p: real)
    ensures p == 20.0 * step as real
    ensures 1 <= step <= TotalSteps ==> 20.0 <= p <= 100.0
  {
    (step as real / TotalSteps as real) * 100.0
  }

  /** The "…% Complete" figure, `Math.round(progressPercentage)`: exactly 20 times the step. */
  function ProgressLabel(step: int): (r: int)
    ensures r == 20 * step
  {
    var p := ProgressPercentage(step);
    assert p == (20 * step) as real;
    Round(p)
  }

  datatype Indicator = Completed | Current | Pending

  /** The circle for step `i` while the wizard shows `step`. */
  function IndicatorOf(i: int, step: int): (s: Indicator)
    ensures s == Completed <==> i < step
    ensures s == Current <==> i == step
    ensures s == Pending <==> i > step
  {
    if i < step then Completed else if i == step then Current else Pending
  }

  /** The circles for steps 1 to `n`. */
  function IndicatorRow(n: nat, step: int): (row: seq<Indicator>)
    ensures |row| == n && forall i :: 0 <= i < n ==> row[i] == IndicatorOf(i + 1, step)
    decreases n
  {
    if n == 0 then [] else IndicatorRow(n - 1, step) + [IndicatorOf(n, step)]
  }

  /** The row drawn above the form: one circle per step. */
  function Indicators(step: int): (row: seq<Indicator>)
    ensures |row| == TotalSteps && forall i :: 0 <= i < TotalSteps ==> row[i] == IndicatorOf(i + 1, step)
  {
    IndicatorRow(TotalSteps as nat, step)
  }

  /** Among circles 1..n, the ones before `step` are completed and at most one is current. */
  lemma {:induction false} IndicatorRowCounts(n: nat, step: int)
    requires 1 <= step
    ensures |IndicatorRow(n, step)| == n
    ensures multiset(IndicatorRow(n, step))[Completed] == if step - 1 <= n then step - 1 else n
    ensures multiset(IndicatorRow(n, step))[Current] == if step <= n then 1 else 0
    decreases n
  {
    if n > 0 {
      IndicatorRowCounts(n - 1, step);
    }
  }

  /** On a step in 1..5, exactly one circle is current and `step - 1` are completed. */
  lemma IndicatorsOfStepInRange(step: int)
    requires 1 <= step <= TotalSteps
    ensures |Indicators(step)| == TotalSteps
    ensures multiset(Indicators(step))[Current] == 1
    ensures multiset(Indicators(step))[Completed] == step - 1
    ensures multiset(Indicators(step))[Pending] == TotalSteps - step
  {
    IndicatorRowCounts(TotalSteps as nat, step);
    var row := Indicators(step);
    assert multiset(row)[Completed] + multiset(row)[Current] + multiset(row)[Pending] == |multiset(row)| by {
      MultisetSplitsByIndicator(row);
    }
  }

  lemma {:induction false} MultisetSplitsByIndicator(row: seq<Indicator>)
    ensures multiset(row)[Completed] + multiset(row)[Current] + multiset(row)[Pending] == |row|
    decreases |row|
  {
    if row != [] {
      var front := row[..|row| - 1];
      MultisetSplitsByIndicator(front);
      var last := row[|row| - 1];
      assert row == front + [last];
      assert multiset(row) == multiset(front) + multiset{last};
      assert |row| == |front| + 1;
      match last
      case Completed => assert multiset(row)[Completed] == multiset(front)[Completed] + 1;
      case Current => assert multiset(row)[Current] == multiset(front)[Current] + 1;
      case Pending => assert multiset(row)[Pending] == multiset(front)[Pending] + 1;
    }
  }

  /** The code stored for a client result: 1 for high risk, 0 for low risk and for an error. */
  function PredictionCode(verdict: Api.Label): (code: nat)
    ensures code <= 1
    ensures code == 1 <==> verdict == Api.HighRisk
  {
    if verdict == Api.HighRisk then 1 else 0
  }

  /** The three `setItem` calls of a submission, in order: the code, the probability, the JSON record. */
  function SubmitWrites(result: Api.Prediction, show: real -> string, record: string): seq<(string, string)> {
    [(PredictionKey, DecimalString(PredictionCode(result.result))),
     (ProbabilityKey, show(result.confidence)),
     (ResultsKey, record)]
  }

  /** The storage contents after all three writes of a submission went through. */
  function StoredItems(items: map<string, string>, result: Api.Prediction, show: real -> string, record: string)
    : (r: map<string, string>)
    ensures r.Keys == items.Keys + {PredictionKey, ProbabilityKey, ResultsKey}
    ensures r[PredictionKey] == DecimalString(PredictionCode(result.result))
    ensures r[ProbabilityKey] == show(result.confidence)
    ensures r[ResultsKey] == record
    ensures forall k :: k in items && k !in {PredictionKey, ProbabilityKey, ResultsKey} ==> r[k] == items[k]
  {
    var w := SubmitWrites(result, show, record);
    var m1 := items[w[0].0 := w[0].1];
    var m2 := m1[w[1].0 := w[1].1];
    var m3 := m2[w[2].0 := w[2].1];
    assert Written(items, w) == m3 by {
      assert Written(items, w) == Written(m1, w[1..]);
      assert Written(m1, w[1..]) == Written(m2, w[1..][1..]);
      assert Written(m2, w[1..][1..]) == Written(m3, w[1..][1..][1..]);
      assert w[1..][1..][1..] == [];
    }
    Written(items, w)
  }

  /**
   * When a submission's writes stop at a throwing call, the earlier keys are
   * already replaced: storage is left unchanged, with only the new code, or
   * with the new code and probability but not the record.
   */
  lemma SubmitWritesStopEarly(accepts: Acceptance, items: map<string, string>, result: Api.Prediction,
                              show: real -> string, record: string)
    ensures var code := DecimalString(PredictionCode(result.result));
            var after1 := items[PredictionKey := code];
            var after2 := after1[ProbabilityKey := show(result.confidence)];
            ApplyWrites(accepts, items, SubmitWrites(result, show, record)) ==
              if !accepts(items, PredictionKey, code) then (items, false)
              else if !accepts(after1, ProbabilityKey, show(result.confidence)) then (after1, false)
              else if !accepts(after2, ResultsKey, record) then (after2, false)
              else (StoredItems(items, result, show, record), true)
  {
    var w := SubmitWrites(result, show, record);
    var code := DecimalString(PredictionCode(result.result));
    var after1 := items[PredictionKey := code];
    var after2 := after1[ProbabilityKey := show(result.confidence)];
    assert w[1..][1..][1..] == [];
    if accepts(items, PredictionKey, code) {
      assert ApplyWrites(accepts, items, w) == ApplyWrites(accepts, after1, w[1..]);
      if accepts(after1, ProbabilityKey, show(result.confidence)) {
        assert ApplyWrites(accepts, after1, w[1..]) == ApplyWrites(accepts, after2, w[1..][1..]);
        if accepts(after2, ResultsKey, record) {
          assert ApplyWrites(accepts, after2, w[1..][1..]) == (after2[ResultsKey := record], true);
          assert after2[ResultsKey := record] == StoredItems(items, result, show, record);
        }
      }
    }
  }

  /** The wizard's state: the step shown, whether a submission is outstanding, and the form. */
  class Wizard {
    var currentStep: int
    var isAnalyzing: bool
    var form: Form

    ghost predicate Valid()
      reads this
    {
      1 <= currentStep <= TotalSteps
    }

    /** What the page's controls alone can lead to: every step before the current one is complete. */
    ghost predicate Reachable()
      reads this
    {
      Valid() && forall k :: 1 <= k < currentStep ==> IsStepValid(k, form)
    }

    /** A fresh session: step 1, not analyzing, all fields empty. */
    constructor ()
      ensures currentStep == 1 && !isAnalyzing && form == EmptyForm()
      ensures Reachable()
    {
      currentStep := 1;
      isAnalyzing := false;
      form := EmptyForm();
    }

    /** `handleChange`: the named field takes the input's value. */
    method HandleChange(f: Field, value: string)
      modifies this`form
      ensures form == old(form).Set(f, value)
    {
      form := form.Set(f, value);
    }

    /** `handleNext`: one step forward unless on the last step; validity is not checked here. */
    method HandleNext()
      modifies this`currentStep
      ensures currentStep == Moved(old(currentStep), Next)
    {
      if currentStep < TotalSteps {
        currentStep := currentStep + 1;
      }
    }

    /** `handlePrev`: one step back unless on the first step. */
    method HandlePrev()
      modifies this`currentStep
      ensures currentStep == Moved(old(currentStep), Prev)
    {
      if currentStep > 1 {
        currentStep := currentStep - 1;
      }
    }

    predicate StepValid()
      reads this
    {
      IsStepValid(currentStep, form)
    }

    /** Next is rendered below the last step; Complete Assessment is rendered otherwise. */
    predicate NextOffered()
      reads this
    {
      currentStep < TotalSteps
    }

    predicate NextEnabled()
      reads this
    {
      NextOffered() && StepValid()
    }

    /** Both Previous controls are disabled on step 1. */
    predicate PrevEnabled()
      reads this
    {
      currentStep != 1
    }

    predicate SubmitOffered()
      reads this
    {
      !NextOffered()
    }

    /** Complete Assessment is disabled while the step is invalid or a submission is outstanding. */
    predicate SubmitEnabled()
      reads this
    {
      SubmitOffered() && StepValid() && !isAnalyzing
    }

    /** The user changes one of the inputs on screen, which are those of the current step. */
    method Edit(f: Field, value: string)
      requires Reachable() && f in StepFields(currentStep)
      modifies this`form
      ensures Reachable()
      ensures form == old(form).Set(f, value)
    {
      forall k | 1 <= k < currentStep
        ensures IsStepValid(k, form.Set(f, value)) == IsStepValid(k, form)
      {
        EditOutsideStepKeepsValidity(k, form, f, value);
      }
      HandleChange(f, value);
    }

    /** The user presses Next, which is only possible while it is offered and enabled. */
    method PressNext()
      requires Reachable() && NextEnabled()
      modifies this`currentStep
      ensures Reachable()
      ensures currentStep == old(currentStep) + 1
    {
      HandleNext();
    }

    /** The user presses Previous (either of the two controls). */
    method PressPrev()
      requires Reachable() && PrevEnabled()
      modifies this`currentStep
      ensures Reachable()
      ensures currentStep == old(currentStep) - 1
    {
      HandlePrev();
    }

    /** The synchronous start of `handleSubmit`: the flag goes up before the request, which blocks a second submit. */
    method StartSubmit()
      modifies this`isAnalyzing
      ensures isAnalyzing && !SubmitEnabled()
    {
      isAnalyzing := true;
    }

    /**
     * The rest of `handleSubmit` once the prediction has resolved: store the
     * code and the probability, then navigate; if storing throws, alert and
     * lower the flag. On success the flag stays up as the page is left.
     */
    method FinishSubmit(result: Api.Prediction, storage: LocalStorage, show: real -> string, record: string)
      returns (navigated: bool)
      requires isAnalyzing
      modifies this`isAnalyzing, storage`items
      ensures (storage.items, navigated) == ApplyWrites(storage.accepts, old(storage.items), SubmitWrites(result, show, record))
      ensures isAnalyzing == navigated
      ensures navigated ==> storage.items == StoredItems(old(storage.items), result, show, record)
    {
      ghost var before := storage.items;
      SubmitWritesStopEarly(storage.accepts, before, result, show, record);
      ghost var outcome := ApplyWrites(storage.accepts, before, SubmitWrites(result, show, record));
      var code := DecimalString(PredictionCode(result.result));
      var threw := storage.SetItem(PredictionKey, code);
      if threw {
        assert outcome == (before, false);
      } else {
        threw := storage.SetItem(ProbabilityKey, show(result.confidence));
        if threw {
          assert outcome == (before[PredictionKey := code], false);
        } else {
          threw := storage.SetItem(ResultsKey, record);
          if !threw {
            assert storage.items == StoredItems(before, result, show, record);
          }
        }
      }
      if threw {
        isAnalyzing := false;
        navigated := false;
      } else {
        navigated := true;
      }
    }

    /** `handleSubmit` as a whole; `request` is what was sent to the predictor, if anything. */
    method HandleSubmit(storage: LocalStorage, parseFloat: string -> Number,
                        fetch: seq<Number> -> Api.FetchOutcome, show: real -> string,
                       serialize: (Api.Prediction, Form) -> string)
      returns (result: Api.Prediction, request: Option<seq<Number>>, navigated: bool)
      modifies this`isAnalyzing, storage`items
      ensures Api.WellFormed(result)
      ensures request.None? <==> exists f :: parseFloat(form.Get(f)).NaN?
      ensures request.None? ==> result == Api.Failed(Api.InvalidInputMessage)
      ensures request.Some? ==> request.value == Api.Features(form, parseFloat) && result == Api.Respond(fetch(request.value))
      ensures (storage.items, navigated)
              == ApplyWrites(storage.accepts, old(storage.items), SubmitWrites(result, show, serialize(result, form)))
      ensures isAnalyzing == navigated
      ensures navigated ==> storage.items == StoredItems(old(storage.items), result, show, serialize(result, form))
    {
      StartSubmit();
      var submitted := form;
      result, request := Api.GetPrediction(submitted, parseFloat, fetch);
      navigated := FinishSubmit(result, storage, show, serialize(result, submitted));
      assert form == submitted;
    }

    /** The user presses Complete Assessment: by then every field of the form has been answered. */
    method PressSubmit(storage: LocalStorage, parseFloat: string -> Number,
                       fetch: seq<Number> -> Api.FetchOutcome, show: real -> string,
                       serialize: (Api.Prediction, Form) -> string)
      returns (result: Api.Prediction, request: Option<seq<Number>>, navigated: bool)
      requires Reachable() && SubmitEnabled()
      modifies this`isAnalyzing, storage`items
      ensures forall f :: form.Get(f) != ""
      ensures Api.WellFormed(result)
      ensures request.None? <==> exists f :: parseFloat(form.Get(f)).NaN?
      ensures request.None? ==> result == Api.Failed(Api.InvalidInputMessage)
      ensures request.Some? ==> request.value == Api.Features(form, parseFloat) && result == Api.Respond(fetch(request.value))
      ensures (storage.items, navigated)
              == ApplyWrites(storage.accepts, old(storage.items), SubmitWrites(result, show, serialize(result, form)))
      ensures isAnalyzing == navigated
      ensures navigated ==> storage.items == StoredItems(old(storage.items), result, show, serialize(result, form))
    {
      AllStepsValidIffComplete(form);
      result, request, navigated := HandleSubmit(storage, parseFloat, fetch, show, serialize);
    }
  }
}
