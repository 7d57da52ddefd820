/** Python-level values and outcomes shared by the whole model: a result
    that is either a value or a raised exception, and the few properties of
    returned objects the runners look at (`is False`, `== False`). */
module Py {

  /** A computation that returns `value` or raises `error`. */
  datatype Result<T, E> = Ok(value: T) | Err(error: E)

  /** What a test function can hand back, as far as the runners can tell.
      A float is a real number (no NaN or infinity); any other object
      (`complex`, `Decimal`, a generator, an instance with its own `__eq__`)
      is known only by whether it compares equal to `False`. */
  datatype PyValue =
    | PyNone
    | PyBool(b: bool)
    | PyInt(i: int)
    | PyStr(s: string)
    | PyFloat(r: real)
    | PyObject(equalsFalse: bool)

  /** `v is False`: only the `False` singleton itself. */
  predicate IsFalse(v: PyValue) {
    v == PyBool(false)
  }

  /** `v == False`: `bool` is a subclass of `int`, so `False` compares as
      `0`, and numbers compare by value, so `0`, `0.0` and `-0.0` equal it;
      another object answers for itself. */
  predicate EqualsFalse(v: PyValue) {
    match v
    case PyBool(b) => !b
    case PyInt(i) => i == 0
    case PyFloat(r) => r == 0.0
    case PyObject(e) => e
    case _ => false
  }

  /** The identity test is strictly finer than the equality test: the two
      differ exactly on the values other than `False` that compare equal to
      it, that is the numeric zeros and the objects that say so. */
  lemma IdentityFinerThanEquality(v: PyValue)
    ensures IsFalse(v) ==> EqualsFalse(v)
    ensures EqualsFalse(v) && !IsFalse(v) <==> v == PyInt(0) || v == PyFloat(0.0) || v == PyObject(true)
  {
  }
}
