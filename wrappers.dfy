/** The optional value used wherever the component may produce `undefined`. */
module Wrappers {

  datatype Option<+T> = None | Some(value: T)

  /** Reading `xs[i]` as JavaScript does: an index outside the array yields `undefined`. */
  function At<T>(xs: seq<T>, i: int): (r: Option<T>)
    ensures r.Some? <==> 0 <= i < |xs|
    ensures 0 <= i < |xs| ==> r == Some(xs[i])
  {
    if 0 <= i < |xs| then Some(xs[i]) else None
  }
}
