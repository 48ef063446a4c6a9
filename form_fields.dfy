/**
 * The wizard's form: a record of thirteen text fields, one per health metric,
 * each holding what its input widget last reported ("" until the user answers).
 */
module FormFields {

  /** The names of the thirteen inputs. */
  datatype Field =
    | Age | Gender | ChestPain | RestingBP | Cholesterol | FastingBS
    | Ecg | MaxHR | Angina | StDepression | Slope | Vessels | Thal

  datatype Form = Form(
    age: string, gender: string, chestPain: string, restingBP: string,
    cholesterol: string, fastingBS: string, ecg: string, maxHR: string,
    angina: string, stDepression: string, slope: string, vessels: string,
    thal: string)
  {
    /** The value of the field named `f` (`form[name]`). */
    function Get(f: Field): string {
      match f
      case Age => age
      case Gender => gender
      case ChestPain => chestPain
      case RestingBP => restingBP
      case Cholesterol => cholesterol
      case FastingBS => fastingBS
      case Ecg => ecg
      case MaxHR => maxHR
      case Angina => angina
      case StDepression => stDepression
      case Slope => slope
      case Vessels => vessels
      case Thal => thal
    }

    /** The record `{ ...form, [name]: value }`: the named field replaced, all others kept. */
    function Set(f: Field, value: string): (r: Form)
      ensures r.Get(f) == value
      ensures forall g :: g != f ==> r.Get(g) == Get(g)
    {
      match f
      case Age => this.(age := value)
      case Gender => this.(gender := value)
      case ChestPain => this.(chestPain := value)
      case RestingBP => this.(restingBP := value)
      case Cholesterol => this.(cholesterol := value)
      case FastingBS => this.(fastingBS := value)
      case Ecg => this.(ecg := value)
      case MaxHR => this.(maxHR := value)
      case Angina => this.(angina := value)
      case StDepression => this.(stDepression := value)
      case Slope => this.(slope := value)
      case Vessels => this.(vessels := value)
      case Thal => this.(thal := value)
    }
  }

  /** The form a wizard session starts with: every field present and empty. */
  function EmptyForm(): (r: Form)
    ensures forall f :: r.Get(f) == ""
  {
    Form("", "", "", "", "", "", "", "", "", "", "", "", "")
  }

  /** Two forms that agree on every field are the same form. */
  lemma FormExtensionality(a: Form, b: Form)
    requires forall f :: a.Get(f) == b.Get(f)
    ensures a == b
  {
    assert a.Get(Age) == b.Get(Age) && a.Get(Gender) == b.Get(Gender);
    assert a.Get(ChestPain) == b.Get(ChestPain) && a.Get(RestingBP) == b.Get(RestingBP);
    assert a.Get(Cholesterol) == b.Get(Cholesterol) && a.Get(FastingBS) == b.Get(FastingBS);
    assert a.Get(Ecg) == b.Get(Ecg) && a.Get(MaxHR) == b.Get(MaxHR);
    assert a.Get(Angina) == b.Get(Angina) && a.Get(StDepression) == b.Get(StDepression);
    assert a.Get(Slope) == b.Get(Slope) && a.Get(Vessels) == b.Get(Vessels);
    assert a.Get(Thal) == b.Get(Thal);
  }

  /** Writing a field twice keeps only the second value. */
  lemma SetLastWriteWins(form: Form, f: Field, v: string, w: string)
    ensures form.Set(f, v).Set(f, w) == form.Set(f, w)
  {
    FormExtensionality(form.Set(f, v).Set(f, w), form.Set(f, w));
  }

  /** Writing a field the value it already holds leaves the form as it was. */
  lemma SetSameValue(form: Form, f: Field)
    ensures form.Set(f, form.Get(f)) == form
  {
    FormExtensionality(form.Set(f, form.Get(f)), form);
  }
}
