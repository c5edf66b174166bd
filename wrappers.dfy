/** Optional values and results that carry the Java exception a call would throw.
    Java's `null` is `None`; a thrown exception is `Err(kind)`. */
module Wrappers {

  datatype Option<+T> = None | Some(value: T)

  /** The kinds of exception the modelled Java code can end in. */
  datatype Exception =
    | NumberFormat            // java.lang.NumberFormatException
    | IndexOutOfBounds        // ArrayIndexOutOfBounds / StringIndexOutOfBounds
    | NegativeArraySize       // java.lang.NegativeArraySizeException
    | NullPointer             // java.lang.NullPointerException
    | IllegalArgument         // java.lang.IllegalArgumentException
    | ClassCast               // java.lang.ClassCastException
    | NoSuchElement           // java.util.NoSuchElementException
    | BufferUnderflow         // java.nio.BufferUnderflowException
    | JsonError               // org.json.JSONException
    | IOError                 // java.io.IOException
    | MalformedData           // rejected by the corrected custom-animation parser

  datatype Result<+T> = Ok(value: T) | Err(error: Exception) {
    predicate IsFailure() { Err? }

    function PropagateFailure<U>(): Result<U>
      requires Err?
    {
      Err(error)
    }

    function Extract(): T
      requires Ok?
    {
      value
    }
  }

  /** The lookup loop of an enum's from-integer method over values(): the first
      constant whose code is v, or null. */
  function FirstWithValue<T>(values: seq<T>, code: T -> int, v: int): (r: Option<T>)
    ensures r.Some? ==> r.value in values && code(r.value) == v
    ensures r.None? ==> forall t :: t in values ==> code(t) != v
  {
    if values == [] then None
    else if code(values[0]) == v then Some(values[0])
    else FirstWithValue(values[1..], code, v)
  }

  /** The outcome of a `void` method: it returns normally or throws. */
  datatype Outcome = Done | Throws(error: Exception)
}
