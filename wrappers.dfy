/** Success-or-error results, the model's rendering of Go's `(value, error)` pairs. */
module Wrappers {

  datatype Result<+T, +E> = Ok(value: T) | Err(error: E)

  /** Puts `acc` in front of a successful sequence result; an error passes through unchanged. */
  function Prepend<T, E>(acc: seq<T>, r: Result<seq<T>, E>): (p: Result<seq<T>, E>)
    ensures p.Ok? <==> r.Ok?
    ensures r.Ok? ==> p.value == acc + r.value
    ensures r.Err? ==> p.error == r.error
  {
    match r
    case Ok(rest) => Ok(acc + rest)
    case Err(e) => Err(e)
  }

  lemma PrependNothing<T, E>(r: Result<seq<T>, E>)
    ensures Prepend([], r) == r
  {
    if r.Ok? {
      assert [] + r.value == r.value;
    }
  }

  lemma PrependTwice<T, E>(a: seq<T>, b: seq<T>, r: Result<seq<T>, E>)
    ensures Prepend(a, Prepend(b, r)) == Prepend(a + b, r)
  {
    if r.Ok? {
      assert a + (b + r.value) == (a + b) + r.value;
    }
  }
}
