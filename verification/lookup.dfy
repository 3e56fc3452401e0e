/** First-match search over a list, as `Array.prototype.find` performs it. */
module Lookup {

  datatype Option<+T> = None | Some(value: T)

  /** The position of the first element satisfying `p`, if there is one. */
  function FirstIndex<T>(xs: seq<T>, p: T -> bool): (r: Option<nat>)
    ensures r.None? <==> forall j | 0 <= j < |xs| :: !p(xs[j])
    ensures r.Some? ==> r.value < |xs| && p(xs[r.value])
    ensures r.Some? ==> forall j | 0 <= j < r.value :: !p(xs[j])
  {
    if |xs| == 0 then None
    else if p(xs[0]) then Some(0)
    else
      match FirstIndex(xs[1..], p)
      case None => None
      case Some(k) => Some(k + 1)
  }

  /** `xs.find(p)`: the first element satisfying `p`, or nothing when none does. */
  function Find<T>(xs: seq<T>, p: T -> bool): (r: Option<T>)
    ensures r.None? <==> forall j | 0 <= j < |xs| :: !p(xs[j])
    ensures r.Some? ==> p(r.value)
    ensures r.Some? ==> exists i | 0 <= i < |xs| :: xs[i] == r.value && forall j | 0 <= j < i :: !p(xs[j])
  {
    match FirstIndex(xs, p)
    case None => None
    case Some(i) => Some(xs[i])
  }
}
