/** Option and Result values standing in for Python's None and for raised exceptions. */
module Wrappers {

  datatype Option<+T> = None | Some(value: T) {
    function GetOr(default: T): T {
      match this
      case Some(v) => v
      case None => default
    }
  }

  datatype Result<+R, +E> = Success(value: R) | Failure(error: E)

  /** Puts `prefix` in front of a successful sequence result; a failure passes through. */
  function Prefixed<T, E>(prefix: seq<T>, r: Result<seq<T>, E>): (p: Result<seq<T>, E>)
    ensures p.Success? <==> r.Success?
    ensures p.Failure? ==> p.error == r.error
    ensures p.Success? ==> |p.value| == |prefix| + |r.value|
    ensures p.Success? ==> p.value[..|prefix|] == prefix && p.value[|prefix|..] == r.value
  {
    match r
    case Success(s) => Success(prefix + s)
    case Failure(e) => Failure(e)
  }

  lemma PrefixedTwice<T, E>(a: seq<T>, b: seq<T>, r: Result<seq<T>, E>)
    ensures Prefixed(a, Prefixed(b, r)) == Prefixed(a + b, r)
  {
    if r.Success? {
      assert a + (b + r.value) == (a + b) + r.value;
    }
  }
}
