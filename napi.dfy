/**
 * The generic adapters between script-engine values and native optionals and
 * vectors. Each adapter is parameterised by the element converter it
 * delegates to, and every result is a Validation.
 */
module NapiConverters {
  import opened Functional

  /**
   * A script-engine value, as far as the adapters can tell values apart:
   * `Other` stands for every value that is neither undefined, null nor an
   * array (numbers, strings, booleans, objects), told apart only by a tag.
   */
  datatype Value = Undefined | Null | Array(elements: seq<Slot>) | Other(tag: nat)

  /**
   * One element position of an array: reading it either yields a value or
   * leaves an exception pending in the engine, with that exception's message.
   */
  datatype Slot = Holds(value: Value) | Throws(message: string)

  /** The conversion error given for a value that is not an array. */
  const ExpectedAnArray: string := "Expected an array"

  // ---------------------------------------------------------------------------
  // Optional values
  // ---------------------------------------------------------------------------

  /**
   * Script value to `Maybe<T>`: only `undefined` is absent; anything else,
   * `null` included, must convert with the element converter.
   */
  function MaybeFromValue<T>(from: Value -> Validation<T>, v: Value): (r: Validation<Maybe<T>>)
    ensures v.Undefined? ==> r == Valid(Nothing)
    ensures r == Valid(Nothing) <==> v.Undefined?
    ensures !v.Undefined? ==> (r.Valid? <==> from(v).Valid?)
    ensures !v.Undefined? && from(v).Valid? ==> r == Valid(Just(from(v).value))
    ensures !v.Undefined? && from(v).Invalid? ==> r == Invalid(from(v).errors)
  {
    if v.Undefined? then Pure(Nothing) else Map(from(v), (x: T) => Just(x))
  }

  /** `Maybe<T>` to a script value: `Nothing` is `null`, `Just(x)` is whatever `to(x)` gives. */
  function MaybeToValue<T>(to: T -> Validation<Value>, m: Maybe<T>): (r: Validation<Value>)
    ensures m.Nothing? ==> r == Valid(Null)
    ensures m.Just? ==> r == to(m.value)
  {
    if m.Just? then to(m.value) else Pure(Null)
  }

  /**
   * Absent values do not survive the trip to the engine and back: `Nothing`
   * becomes `null`, and `null` is handed to the element converter, so the
   * result is never `Valid(Nothing)`.
   */
  lemma NothingDoesNotRoundTrip<T>(from: Value -> Validation<T>, to: T -> Validation<Value>)
    ensures MaybeToValue(to, Nothing) == Valid(Null)
    ensures MaybeFromValue(from, MaybeToValue(to, Nothing).value) != Valid(Nothing)
  {
  }

  /**
   * A present value survives the trip when its element converters round-trip
   * and the element does not become `undefined`.
   */
  lemma JustRoundTrip<T>(from: Value -> Validation<T>, to: T -> Validation<Value>, x: T)
    requires to(x).Valid? && !to(x).value.Undefined?
    requires from(to(x).value) == Valid(x)
    ensures MaybeToValue(to, Just(x)).Valid?
    ensures MaybeFromValue(from, MaybeToValue(to, Just(x)).value) == Valid(Just(x))
  {
  }

  // ---------------------------------------------------------------------------
  // Arrays
  // ---------------------------------------------------------------------------

  /** Script value to an engine array: succeeds exactly for arrays. */
  function ValueToArray(v: Value): (r: Validation<seq<Slot>>)
    ensures r.Valid? <==> v.Array?
    ensures r.Valid? ==> r.value == v.elements
    ensures r.Invalid? ==> r.errors == [ExpectedAnArray]
  {
    if v.Array? then Pure(v.elements) else Invalid([ExpectedAnArray])
  }

  // ---------------------------------------------------------------------------
  // Fail-fast sequencing, shared by both vector adapters
  // ---------------------------------------------------------------------------

  /** `k` is the first position of `rs` that holds errors. */
  ghost predicate FirstInvalid<U>(rs: seq<Validation<U>>, k: int)
  {
    0 <= k < |rs| && rs[k].Invalid? && forall j :: 0 <= j < k ==> rs[j].Valid?
  }

  /**
   * Combines per-element results in index order: all values when every
   * element is valid, otherwise exactly the errors of the first invalid one.
   */
  function Collect<U>(rs: seq<Validation<U>>): (r: Validation<seq<U>>)
    ensures r.Valid? <==> forall i :: 0 <= i < |rs| ==> rs[i].Valid?
    ensures r.Valid? ==> |r.value| == |rs|
    ensures r.Valid? ==> forall i :: 0 <= i < |rs| ==> rs[i].Valid? && r.value[i] == rs[i].value
    ensures r.Invalid? ==> exists k :: FirstInvalid(rs, k) && r.errors == rs[k].errors
    decreases |rs|
  {
    if |rs| == 0 then Valid([])
    else
      var prefix := rs[..|rs| - 1];
      assert forall i :: 0 <= i < |prefix| ==> prefix[i] == rs[i];
      match Collect(prefix)
      case Invalid(e) => Invalid(e)
      case Valid(xs) =>
        match rs[|rs| - 1]
        case Invalid(e) => assert FirstInvalid(rs, |rs| - 1); Invalid(e)
        case Valid(x) => Valid(xs + [x])
  }

  /**
   * Once an element fails, nothing after it matters: replacing everything
   * after the first invalid position leaves the result unchanged.
   */
  lemma CollectIgnoresSuffix<U>(rs: seq<Validation<U>>, k: int, rest: seq<Validation<U>>)
    requires FirstInvalid(rs, k)
    ensures Collect(rs[..k + 1] + rest) == Collect(rs) == Invalid(rs[k].errors)
  {
    var other := rs[..k + 1] + rest;
    assert forall j :: 0 <= j <= k ==> other[j] == rs[j];
    FirstInvalidUnique(rs, k);
    FirstInvalidUnique(other, k);
  }

  /** There is only one first invalid position, so `Collect`'s errors are determined. */
  lemma FirstInvalidUnique<U>(rs: seq<Validation<U>>, k: int)
    requires FirstInvalid(rs, k)
    ensures forall j :: FirstInvalid(rs, j) ==> j == k
    ensures Collect(rs) == Invalid(rs[k].errors)
  {
  }

  // ---------------------------------------------------------------------------
  // Engine array to native vector
  // ---------------------------------------------------------------------------

  /** Reading one array position and converting it with `from`. */
  function ReadElement<T>(from: Value -> Validation<T>, slot: Slot): Validation<T>
  {
    match slot
    case Throws(message) => Invalid([message])
    case Holds(v) => from(v)
  }

  /** The per-position results of converting `elements`, in index order. */
  function ReadElements<T>(from: Value -> Validation<T>, elements: seq<Slot>): (rs: seq<Validation<T>>)
    ensures |rs| == |elements|
  {
    seq(|elements|, i requires 0 <= i < |elements| => ReadElement(from, elements[i]))
  }

  /** What converting an engine array to a native vector yields. */
  function VectorFromArray<T>(from: Value -> Validation<T>, elements: seq<Slot>): Validation<seq<T>>
  {
    Collect(ReadElements(from, elements))
  }

  /**
   * Array to vector, as a loop that reads each position in turn, stops at the
   * first pending exception or invalid element and otherwise appends.
   */
  method ArrayToVector<T>(from: Value -> Validation<T>, elements: seq<Slot>) returns (r: Validation<seq<T>>)
    ensures r == VectorFromArray(from, elements)
  {
    ghost var rs := ReadElements(from, elements);
    var validated: seq<T> := [];
    var i := 0;
    while i < |elements|
      invariant 0 <= i <= |elements|
      invariant |validated| == i
      invariant forall j :: 0 <= j < i ==> rs[j].Valid? && validated[j] == rs[j].value
    {
      var maybeValue := elements[i];
      if maybeValue.Throws? {
        assert rs[i] == Invalid([maybeValue.message]);
        FirstInvalidUnique(rs, i);
        return Invalid([maybeValue.message]);
      }
      var maybeValidated := from(maybeValue.value);
      if maybeValidated.Invalid? {
        assert rs[i] == maybeValidated;
        FirstInvalidUnique(rs, i);
        return Invalid(maybeValidated.errors);
      }
      validated := validated + [maybeValidated.value];
      i := i + 1;
    }
    assert Collect(rs).value == validated;
    r := Valid(validated);
  }

  /**
   * Fail-fast, stated on arrays: if position `k` is the first that fails,
   * the result is exactly its errors, whatever follows it.
   */
  lemma ArrayFailFast<T>(from: Value -> Validation<T>, elements: seq<Slot>, k: int, rest: seq<Slot>)
    requires 0 <= k < |elements| && ReadElement(from, elements[k]).Invalid?
    requires forall j :: 0 <= j < k ==> ReadElement(from, elements[j]).Valid?
    ensures VectorFromArray(from, elements) == Invalid(ReadElement(from, elements[k]).errors)
    ensures VectorFromArray(from, elements[..k + 1] + rest) == VectorFromArray(from, elements)
  {
    var rs := ReadElements(from, elements);
    assert FirstInvalid(rs, k);
    var rest' := ReadElements(from, elements[..k + 1] + rest)[k + 1..];
    var other := elements[..k + 1] + rest;
    assert ReadElements(from, other) == rs[..k + 1] + rest' by {
      assert forall j :: 0 <= j <= k ==> other[j] == elements[j];
    }
    CollectIgnoresSuffix(rs, k, rest');
  }

  // ---------------------------------------------------------------------------
  // Native vector to engine array
  // ---------------------------------------------------------------------------

  /**
   * Converting element `x` and storing it at position `i`: the converter's
   * errors, or the message of an exception pending after the store.
   */
  function StoreElement<T>(to: T -> Validation<Value>, pendingAfterSet: (nat, Value) -> Maybe<string>,
                           x: T, i: nat): Validation<Value>
  {
    match to(x)
    case Invalid(e) => Invalid(e)
    case Valid(v) =>
      match pendingAfterSet(i, v)
      case Just(message) => Invalid([message])
      case Nothing => Valid(v)
  }

  /** The per-position results of converting and storing `vector`, in index order. */
  function StoreElements<T>(to: T -> Validation<Value>, pendingAfterSet: (nat, Value) -> Maybe<string>,
                            vector: seq<T>): (rs: seq<Validation<Value>>)
    ensures |rs| == |vector|
  {
    seq(|vector|, i requires 0 <= i < |vector| => StoreElement(to, pendingAfterSet, vector[i], i))
  }

  /** The array elements of a completed store: every position holds its value. */
  function Holding(vs: seq<Value>): (slots: seq<Slot>)
    ensures |slots| == |vs|
  {
    seq(|vs|, i requires 0 <= i < |vs| => Holds(vs[i]))
  }

  /** What converting a native vector to an engine array yields. */
  function ArrayFromVector<T>(to: T -> Validation<Value>, pendingAfterSet: (nat, Value) -> Maybe<string>,
                              vector: seq<T>): Validation<Value>
  {
    match Collect(StoreElements(to, pendingAfterSet, vector))
    case Invalid(e) => Invalid(e)
    case Valid(vs) => Valid(Array(Holding(vs)))
  }

  /**
   * Vector to array, as a loop over a preallocated array of the vector's
   * length: each element is converted and stored, and the first conversion
   * error or pending exception aborts.
   */
  method VectorToArray<T>(to: T -> Validation<Value>, pendingAfterSet: (nat, Value) -> Maybe<string>,
                          vector: seq<T>) returns (r: Validation<Value>)
    ensures r == ArrayFromVector(to, pendingAfterSet, vector)
  {
    ghost var rs := StoreElements(to, pendingAfterSet, vector);
    var maybeArray := new Slot[|vector|](_ => Holds(Undefined));
    var i := 0;
    while i < |vector|
      invariant 0 <= i <= |vector|
      invariant forall j :: 0 <= j < i ==> rs[j].Valid? && maybeArray[j] == Holds(rs[j].value)
    {
      var maybeValue := to(vector[i]);
      if maybeValue.Invalid? {
        assert rs[i] == maybeValue;
        FirstInvalidUnique(rs, i);
        return Invalid(maybeValue.errors);
      }
      maybeArray[i] := Holds(maybeValue.value);
      var pending := pendingAfterSet(i, maybeValue.value);
      if pending.Just? {
        assert rs[i] == Invalid([pending.value]);
        FirstInvalidUnique(rs, i);
        return Invalid([pending.value]);
      }
      i := i + 1;
    }
    var vs := Collect(rs).value;
    assert maybeArray[..] == Holding(vs);
    r := Valid(Array(maybeArray[..]));
  }

  /**
   * A native vector survives the trip to an engine array and back when every
   * element's converters round-trip and no store leaves an exception pending.
   */
  lemma VectorRoundTrip<T>(from: Value -> Validation<T>, to: T -> Validation<Value>,
                           pendingAfterSet: (nat, Value) -> Maybe<string>, vector: seq<T>)
    requires forall i :: 0 <= i < |vector| ==> to(vector[i]).Valid? && from(to(vector[i]).value) == Valid(vector[i])
    requires forall i, v :: pendingAfterSet(i, v) == Nothing
    ensures ArrayFromVector(to, pendingAfterSet, vector).Valid?
    ensures ValueToArray(ArrayFromVector(to, pendingAfterSet, vector).value).Valid?
    ensures VectorFromArray(from, ValueToArray(ArrayFromVector(to, pendingAfterSet, vector).value).value) == Valid(vector)
  {
    var rs := StoreElements(to, pendingAfterSet, vector);
    forall i | 0 <= i < |vector|
      ensures rs[i] == Valid(to(vector[i]).value)
    {
      assert pendingAfterSet(i, to(vector[i]).value) == Nothing;
    }
    var slots := Holding(Collect(rs).value);
    var back := ReadElements(from, slots);
    forall i | 0 <= i < |vector|
      ensures back[i] == Valid(vector[i])
    {
      assert slots[i] == Holds(to(vector[i]).value);
    }
    assert Collect(back).value == vector;
  }
}
