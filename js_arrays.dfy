/** The few JavaScript array operations the components rely on, on sequences. */
module JsArrays {
  import opened Wrappers

  function Min(a: nat, b: nat): nat
  {
    if a <= b then a else b
  }

  /** `array.slice(0, n)`: the first `n` elements, or all of them when there are fewer. */
  function Take<T>(s: seq<T>, n: nat): (r: seq<T>)
    ensures |r| == Min(|s|, n)
    ensures r == s[..|r|]
  {
    if |s| <= n then s else s[..n]
  }

  /** `array[i]`: the element, or `undefined` past the end. */
  function At<T>(s: seq<T>, i: nat): Option<T>
  {
    if i < |s| then Some(s[i]) else None
  }

  /** `array.map((x, index) => f(x, index))`. */
  function MapWithIndex<A, B>(xs: seq<A>, f: (A, nat) -> B): (r: seq<B>)
    ensures |r| == |xs|
    ensures forall i :: 0 <= i < |xs| ==> r[i] == f(xs[i], i)
  {
    if xs == [] then []
    else MapWithIndex(xs[..|xs| - 1], f) + [f(xs[|xs| - 1], |xs| - 1)]
  }
}
