/**
 * The browser's `localStorage` as the two pages use it: a map from keys to
 * text. Each `setItem` may throw on its own (storage disabled, quota
 * exhausted by the value written), and `getItem` throws when the browser
 * blocks storage access altogether.
 */
module BrowserStorage {
  import opened JsValues

  /** The keys the form page writes; the result page reads back the first two. */
  const PredictionKey: string := "prediction"
  const ProbabilityKey: string := "probability"
  const ResultsKey: string := "heartAssessmentResults"

  /** The browser's decision on one `setItem(key, value)` given the current contents: true when it takes the write. */
  type Acceptance = (map<string, string>, string, string) -> bool

  /** `localStorage.getItem(key)` over the stored items: the text, or `null` when the key was never set. */
  function GetItem(items: map<string, string>, key: string): (r: Nullable<string>)
    ensures r.NonNull? <==> key in items
    ensures r.NonNull? ==> r.value == items[key]
  {
    if key in items then NonNull(items[key]) else Null
  }

  /** The contents after every write of `writes`, in order, went through. */
  function Written(items: map<string, string>, writes: seq<(string, string)>): map<string, string>
    decreases |writes|
  {
    if writes == [] then items else Written(items[writes[0].0 := writes[0].1], writes[1..])
  }

  /** A sequence of `setItem` calls that stops at the first one that throws: the contents left, and whether none threw. */
  function ApplyWrites(accepts: Acceptance, items: map<string, string>, writes: seq<(string, string)>)
    : (r: (map<string, string>, bool))
    ensures writes == [] ==> r == (items, true)
    ensures writes != [] && !accepts(items, writes[0].0, writes[0].1) ==> r == (items, false)
    decreases |writes|
  {
    if writes == [] then (items, true)
    else if !accepts(items, writes[0].0, writes[0].1) then (items, false)
    else ApplyWrites(accepts, items[writes[0].0 := writes[0].1], writes[1..])
  }

  /**
   * The writes before the throwing call have taken effect and the later ones
   * have not: for some `n`, the first `n` writes were accepted one after the
   * other, the contents are those `n` writes applied, and either all writes
   * went through or write `n` was refused.
   */
  lemma {:induction false} ApplyWritesStopsAtFirstRefusal(accepts: Acceptance, items: map<string, string>,
                                                          writes: seq<(string, string)>)
    returns (n: nat)
    ensures n <= |writes|
    ensures ApplyWrites(accepts, items, writes).0 == Written(items, writes[..n])
    ensures ApplyWrites(accepts, items, writes).1 <==> n == |writes|
    ensures forall i :: 0 <= i < n ==> accepts(Written(items, writes[..i]), writes[i].0, writes[i].1)
    ensures n < |writes| ==> !accepts(Written(items, writes[..n]), writes[n].0, writes[n].1)
    decreases |writes|
  {
    if writes == [] || !accepts(items, writes[0].0, writes[0].1) {
      n := 0;
      assert writes[..0] == [];
    } else {
      var next := items[writes[0].0 := writes[0].1];
      var m := ApplyWritesStopsAtFirstRefusal(accepts, next, writes[1..]);
      n := m + 1;
      forall i | 0 <= i <= n
        ensures i > 0 ==> Written(items, writes[..i]) == Written(next, writes[1..][..i - 1])
      {
        if i > 0 {
          assert writes[..i][1..] == writes[1..][..i - 1];
        }
      }
      forall i | 0 <= i < n
        ensures accepts(Written(items, writes[..i]), writes[i].0, writes[i].1)
      {
        if i == 0 {
          assert writes[..0] == [];
        } else {
          assert writes[1..][i - 1] == writes[i];
        }
      }
      if n < |writes| {
        assert writes[1..][m] == writes[n];
      }
    }
  }

  class LocalStorage {
    var items: map<string, string>
    /** Which writes the browser takes; a refused write throws. */
    const accepts: Acceptance
    /**
     * Whether storage access is allowed at all; when it is not, `getItem` throws.
     * It is independent of `accepts`: a browser that blocks storage also refuses
     * every write, which a caller states by passing an `accepts` that is always false.
     */
    const readable: bool

    constructor (initial: map<string, string>, accepts: Acceptance, readable: bool)
      ensures items == initial && this.accepts == accepts && this.readable == readable
    {
      items := initial;
      this.accepts := accepts;
      this.readable := readable;
    }

    /** `localStorage.getItem(key)`; `threw` reports the exception of a blocked storage. */
    method Get(key: string) returns (r: Nullable<string>, threw: bool)
      ensures threw == !readable
      ensures !threw ==> r == GetItem(items, key)
    {
      threw := !readable;
      r := if readable then GetItem(items, key) else Null;
    }

    /** `localStorage.setItem(key, value)`, last write wins; `threw` reports the exception of a refused write. */
    method SetItem(key: string, value: string) returns (threw: bool)
      modifies this`items
      ensures threw == !accepts(old(items), key, value)
      ensures items == if threw then old(items) else old(items)[key := value]
    {
      threw := !accepts(items, key, value);
      if !threw {
        items := items[key := value];
      }
    }
  }
}
