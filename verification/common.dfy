/** Small shared vocabulary: an optional value, Go's `math.Max`/`math.Min`
    on the finite reals that stand in for float64, the clamp built from them,
    and the (outputs, final state) pair every block recurrence returns. */
module Common {

  /** The conventional Some/None datatype, used where Go returns nil
      or an `err`. */
  datatype Option<+T> = None | Some(value: T)

  /** `math.Max` restricted to finite values. */
  function Max(a: real, b: real): real
  {
    if a >= b then a else b
  }

  /** `math.Min` restricted to finite values. */
  function Min(a: real, b: real): real
  {
    if a <= b then a else b
  }

  /** `math.Max(lo, math.Min(hi, v))`: the clamp used by every setter, by the
      mixer's output stage and by the byte encoder. */
  function Clamp(v: real, lo: real, hi: real): (r: real)
    ensures lo <= hi ==> lo <= r <= hi
    ensures lo <= v <= hi ==> r == v
    ensures v < lo ==> r == lo
    ensures lo <= hi && hi < v ==> r == hi
  {
    Max(lo, Min(hi, v))
  }

  /** The outputs of running a recurrence over a block of inputs, together
      with the recurrence's state after the last input. */
  datatype Block<S> = Block(out: seq<real>, state: S)

  /** `x` lies between `a` and `b`, whichever of the two is larger. */
  predicate Between(a: real, x: real, b: real)
  {
    (a <= b ==> a <= x <= b) && (b <= a ==> b <= x <= a)
  }

  /** Multiplying by a non-negative volume scales a bound. */
  lemma ScaleBound(x: real, bound: real, v: real)
    requires -bound <= x <= bound
    requires 0.0 <= v
    ensures -(bound * v) <= x * v <= bound * v
  {
    assert (bound - x) * v >= 0.0;
    assert (x + bound) * v >= 0.0;
  }

  /** A weighted average of two values bounded by `bound` is bounded by it. */
  lemma WeightedBound(x: real, y: real, t: real, bound: real)
    requires -bound <= x <= bound && -bound <= y <= bound
    requires 0.0 <= t <= 1.0
    ensures -bound <= x * (1.0 - t) + y * t <= bound
  {
    NonNegativeProduct(bound - x, 1.0 - t);
    NonNegativeProduct(bound - y, t);
    NonNegativeProduct(x + bound, 1.0 - t);
    NonNegativeProduct(y + bound, t);
    assert x * (1.0 - t) + y * t - bound == -((bound - x) * (1.0 - t) + (bound - y) * t);
    assert x * (1.0 - t) + y * t + bound == (x + bound) * (1.0 - t) + (y + bound) * t;
  }

  lemma NonNegativeProduct(a: real, b: real)
    requires 0.0 <= a && 0.0 <= b
    ensures 0.0 <= a * b
  {
  }
}
