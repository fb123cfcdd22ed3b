/** Composition of a list of layers, as `nn.Sequential` applies them. */
module Sequential {

  /** Feeds `x` through `layers` from first to last, each step done by `apply`. */
  function Forward<L, T>(layers: seq<L>, apply: (L, T) -> T, x: T): T
    decreases |layers|
  {
    if layers == [] then x else Forward(layers[1..], apply, apply(layers[0], x))
  }

  /** Running two lists back to back is running their concatenation. */
  lemma {:induction false} ForwardConcat<L, T>(a: seq<L>, b: seq<L>, apply: (L, T) -> T, x: T)
    ensures Forward(a + b, apply, x) == Forward(b, apply, Forward(a, apply, x))
    decreases |a|
  {
    if a == [] {
      assert a + b == b;
    } else {
      assert (a + b)[1..] == a[1..] + b;
      ForwardConcat(a[1..], b, apply, apply(a[0], x));
    }
  }
}
