/** The shelving biquad of internal/filter/biquad.go: a direct-form-I
    second-order recurrence with four delay registers.

    The coefficients come from the RBJ Audio-EQ-Cookbook shelving formulas
    with slope S = 1; that derivation (powers, sines, cosines, square roots)
    is a `Design` function supplied by the caller, so every statement here
    holds whatever coefficients it yields. */
module Filter {
  import opened Common

  datatype ShelfType = LowShelf | HighShelf

  /** The five normalised coefficients (already divided by a0). */
  datatype Coeffs = Coeffs(b0: real, b1: real, b2: real, a1: real, a2: real)

  /** computeCoefficients: (shelf type, f0, sample rate, gain in dB) to coefficients. */
  type Design = (ShelfType, real, real, real) -> Coeffs

  /** x1, x2 are the last two inputs and y1, y2 the last two outputs. */
  datatype Biquad = Biquad(coeffs: Coeffs, x1: real, x2: real, y1: real, y2: real,
                           shelf: ShelfType, f0: real, sampleRate: real)

  /** NewShelf: zeroed delay registers and the coefficients for `gainDB`. */
  function NewShelf(design: Design, shelf: ShelfType, f0: real, gainDB: real, sampleRate: real): (b: Biquad)
    ensures b.x1 == 0.0 && b.x2 == 0.0 && b.y1 == 0.0 && b.y2 == 0.0
    ensures b.shelf == shelf && b.f0 == f0 && b.sampleRate == sampleRate
    ensures b.coeffs == design(shelf, f0, sampleRate, gainDB)
  {
    Biquad(design(shelf, f0, sampleRate, gainDB), 0.0, 0.0, 0.0, 0.0, shelf, f0, sampleRate)
  }

  /** UpdateGain recomputes the coefficients from the fixed shelf type,
      frequency and sample rate; the delay registers are never reset, so a gain
      change does not click. */
  function UpdateGain(design: Design, b: Biquad, gainDB: real): (b': Biquad)
    ensures b'.coeffs == design(b.shelf, b.f0, b.sampleRate, gainDB)
    ensures b'.x1 == b.x1 && b'.x2 == b.x2 && b'.y1 == b.y1 && b'.y2 == b.y2
    ensures b'.shelf == b.shelf && b'.f0 == b.f0 && b'.sampleRate == b.sampleRate
  {
    b.(coeffs := design(b.shelf, b.f0, b.sampleRate, gainDB))
  }

  /** Only the last gain set matters. */
  lemma UpdateGainLastWins(design: Design, b: Biquad, g1: real, g2: real)
    ensures UpdateGain(design, UpdateGain(design, b, g1), g2) == UpdateGain(design, b, g2)
  {
  }

  /** The direct-form-I difference equation
      y[n] = b0 x[n] + b1 x[n-1] + b2 x[n-2] - a1 y[n-1] - a2 y[n-2]. */
  function Equation(c: Coeffs, x0: real, x1: real, x2: real, y1: real, y2: real): real
  {
    c.b0 * x0 + c.b1 * x1 + c.b2 * x2 - c.a1 * y1 - c.a2 * y2
  }

  /** One sample: the output from the pre-step registers, then the shift. */
  function Step(b: Biquad, x: real): (real, Biquad)
  {
    var y := Equation(b.coeffs, x, b.x1, b.x2, b.y1, b.y2);
    (y, b.(x2 := b.x1, x1 := x, y2 := b.y1, y1 := y))
  }

  /** The filter run over a whole buffer, sample by sample. */
  function Run(b: Biquad, xs: seq<real>): (r: Block<Biquad>)
    ensures |r.out| == |xs|
    ensures r.state.coeffs == b.coeffs && r.state.shelf == b.shelf
    ensures r.state.f0 == b.f0 && r.state.sampleRate == b.sampleRate
    decreases |xs|
  {
    if |xs| == 0 then Block([], b)
    else
      var prev := Run(b, xs[..|xs| - 1]);
      var (y, b') := Step(prev.state, xs[|xs| - 1]);
      Block(prev.out + [y], b')
  }

  /** Process on an empty buffer changes nothing. */
  lemma RunEmpty(b: Biquad)
    ensures Run(b, []) == Block([], b)
  {
  }

  /** Processing `a` and then `c` gives the outputs and final registers of
      processing `a + c` in one call. */
  lemma {:induction false} RunSplit(b: Biquad, a: seq<real>, c: seq<real>)
    ensures Run(b, a + c) == Block(Run(b, a).out + Run(Run(b, a).state, c).out, Run(Run(b, a).state, c).state)
    decreases |c|
  {
    var first := Run(b, a);
    if |c| == 0 {
      assert a + c == a;
      assert first.out + [] == first.out;
    } else {
      var c' := c[..|c| - 1];
      var x := c[|c| - 1];
      RunSplit(b, a, c');
      var tail := Run(first.state, c');
      assert c == c' + [x];
      assert a + c == (a + c') + [x];
      RunSnoc(b, a + c', x);
      RunSnoc(first.state, c', x);
      var y := Step(tail.state, x).0;
      assert first.out + tail.out + [y] == first.out + (tail.out + [y]);
    }
  }

  /** Run on one more sample is one more Step. */
  lemma RunSnoc(b: Biquad, xs: seq<real>, x: real)
    ensures var prev := Run(b, xs);
            Run(b, xs + [x]) == Block(prev.out + [Step(prev.state, x).0], Step(prev.state, x).1)
  {
    assert (xs + [x])[..|xs|] == xs;
  }

  /** The input at position `i`, reaching back into the registers for
      `i == -1` (x1) and `i == -2` (x2). */
  function InputAt(b: Biquad, xs: seq<real>, i: int): real
    requires -2 <= i < |xs|
  {
    if i >= 0 then xs[i] else if i == -1 then b.x1 else b.x2
  }

  /** The output at position `i`, reaching back into y1 and y2. */
  function OutputAt(b: Biquad, ys: seq<real>, i: int): real
    requires -2 <= i < |ys|
  {
    if i >= 0 then ys[i] else if i == -1 then b.y1 else b.y2
  }

  /** Run applies the difference equation at every position of the buffer, continuing from the registers, and leaves the
      last two inputs and outputs in the registers. */
  lemma {:induction false} RunIsDifferenceEquation(b: Biquad, xs: seq<real>)
    ensures var r := Run(b, xs);
            forall i :: 0 <= i < |xs| ==>
              r.out[i] == Equation(b.coeffs, xs[i], InputAt(b, xs, i - 1), InputAt(b, xs, i - 2),
                                   OutputAt(b, r.out, i - 1), OutputAt(b, r.out, i - 2))
    ensures var r := Run(b, xs);
            r.state.x1 == InputAt(b, xs, |xs| - 1) && r.state.x2 == InputAt(b, xs, |xs| - 2)
    ensures var r := Run(b, xs);
            r.state.y1 == OutputAt(b, r.out, |xs| - 1) && r.state.y2 == OutputAt(b, r.out, |xs| - 2)
    decreases |xs|
  {
    if |xs| > 0 {
      var n := |xs| - 1;
      var p := xs[..n];
      RunIsDifferenceEquation(b, p);
      var prev := Run(b, p);
      var r := Run(b, xs);
      var c := b.coeffs;
      var s := prev.state;
      var y := Equation(c, xs[n], s.x1, s.x2, s.y1, s.y2);
      assert r.out == prev.out + [y];
      assert r.state == s.(x2 := s.x1, x1 := xs[n], y2 := s.y1, y1 := y);
      forall i | -2 <= i < n
        ensures InputAt(b, p, i) == InputAt(b, xs, i)
        ensures OutputAt(b, prev.out, i) == OutputAt(b, r.out, i)
      {
        if i >= 0 {
          assert p[i] == xs[i];
          assert prev.out[i] == r.out[i];
        }
      }
      assert s.x1 == InputAt(b, xs, n - 1) && s.x2 == InputAt(b, xs, n - 2);
      assert s.y1 == OutputAt(b, r.out, n - 1) && s.y2 == OutputAt(b, r.out, n - 2);
      forall i | 0 <= i < |xs|
        ensures r.out[i] == Equation(c, xs[i], InputAt(b, xs, i - 1), InputAt(b, xs, i - 2),
                                     OutputAt(b, r.out, i - 1), OutputAt(b, r.out, i - 2))
      {
        if i < n {
          assert r.out[i] == prev.out[i];
          assert p[i] == xs[i];
        }
      }
    }
  }

  /** Process: the in-place loop of biquad.go, on a value buffer. */
  method Process(b: Biquad, xs: seq<real>) returns (ys: seq<real>, b': Biquad)
    ensures Block(ys, b') == Run(b, xs)
    ensures |ys| == |xs|
    ensures b'.coeffs == b.coeffs && b'.shelf == b.shelf && b'.f0 == b.f0 && b'.sampleRate == b.sampleRate
  {
    ys := [];
    b' := b;
    var i := 0;
    while i < |xs|
      invariant 0 <= i <= |xs|
      invariant Block(ys, b') == Run(b, xs[..i])
    {
      var x := xs[i];
      var y := Equation(b'.coeffs, x, b'.x1, b'.x2, b'.y1, b'.y2);
      b' := b'.(x2 := b'.x1, x1 := x, y2 := b'.y1, y1 := y);
      ys := ys + [y];
      assert xs[..i + 1][..i] == xs[..i];
      assert xs[..i + 1][i] == x;
      i := i + 1;
    }
    assert xs[..i] == xs;
  }
}
