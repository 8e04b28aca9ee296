/** Small vocabulary shared by the models: optional values, and filtering and
    counting over histories, which every run-level statement is phrased with. */
module Common {

  datatype Option<+T> = None | Some(value: T)

  function Front<T>(xs: seq<T>): seq<T>
    requires xs != []
  {
    xs[..|xs| - 1]
  }

  function Last<T>(xs: seq<T>): T
    requires xs != []
  {
    xs[|xs| - 1]
  }

  /** The elements of `xs` that satisfy `keep`, in order. */
  function Filter<T>(xs: seq<T>, keep: T -> bool): seq<T>
  {
    if xs == [] then []
    else Filter(Front(xs), keep) + if keep(Last(xs)) then [Last(xs)] else []
  }

  lemma {:induction false} FilterAppend<T>(xs: seq<T>, ys: seq<T>, keep: T -> bool)
    ensures Filter(xs + ys, keep) == Filter(xs, keep) + Filter(ys, keep)
  {
    if ys == [] {
      assert xs + ys == xs;
    } else {
      FilterAppend(xs, Front(ys), keep);
      assert Front(xs + ys) == xs + Front(ys);
    }
  }

  /** The most recent element of a history for which `pick` yields a value. */
  function Latest<T, X>(xs: seq<T>, pick: T -> Option<X>): Option<X>
  {
    if xs == [] then None
    else if pick(Last(xs)).Some? then pick(Last(xs))
    else Latest(Front(xs), pick)
  }

  lemma LatestOfAppend<T, X>(xs: seq<T>, x: T, pick: T -> Option<X>)
    ensures Latest(xs + [x], pick) == if pick(x).Some? then pick(x) else Latest(xs, pick)
  {
    assert Front(xs + [x]) == xs && Last(xs + [x]) == x;
  }

  function Count<T>(xs: seq<T>, what: T -> bool): nat
  {
    if xs == [] then 0 else Count(Front(xs), what) + if what(Last(xs)) then 1 else 0
  }

  lemma CountOfAppend<T>(xs: seq<T>, x: T, what: T -> bool)
    ensures Count(xs + [x], what) == Count(xs, what) + if what(x) then 1 else 0
  {
    assert Front(xs + [x]) == xs && Last(xs + [x]) == x;
  }

  function Map<T, U>(xs: seq<T>, f: T -> U): (ys: seq<U>)
    ensures |ys| == |xs|
    ensures forall i :: 0 <= i < |xs| ==> ys[i] == f(xs[i])
  {
    seq(|xs|, i requires 0 <= i < |xs| => f(xs[i]))
  }

  function Concat<T>(xss: seq<seq<T>>): seq<T>
  {
    if xss == [] then [] else Concat(Front(xss)) + Last(xss)
  }
}
