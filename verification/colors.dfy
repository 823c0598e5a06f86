/** The five per-colour recurrences of internal/noise/generator.go, each run
    over a block of white samples from a given state, with their closed forms
    and the bounds they keep when every white sample lies in [-1, 1]. */
module NoiseColors {
  import opened Common

  /** The seven pink-filter accumulators. */
  type Taps = s: seq<real> | |s| == 7 witness [0.0, 0.0, 0.0, 0.0, 0.0, 0.0, 0.0]

  const PinkCoeffs: seq<real> := [0.1294, 0.1875, 0.2414, 0.3026, 0.3830, 0.4962, 0.7195]

  const ZeroTaps: Taps := [0.0, 0.0, 0.0, 0.0, 0.0, 0.0, 0.0]

  /** Violet remembers the previous white sample and the previous first difference. */
  datatype VioletMemory = VioletMemory(prevWhite: real, prevBlue: real)

  // ---------------------------------------------------------------------------
  // Per-colour recurrences
  // ---------------------------------------------------------------------------

  /** Every white sample of a block lies in [-1, 1]. */
  predicate WhiteBounded(ws: seq<real>)
  {
    forall i :: 0 <= i < |ws| ==> -1.0 <= ws[i] <= 1.0
  }

  /** Every sample of a block lies within `bound` of zero. */
  predicate Within(xs: seq<real>, bound: real)
  {
    forall i :: 0 <= i < |xs| ==> -bound <= xs[i] <= bound
  }

  /** Every generator multiplies each output sample by the volume. The
      recurrences below compute the output at volume 1; the generator scales
      it sample by sample. */
  function Scale(xs: seq<real>, volume: real): (r: seq<real>)
    ensures |r| == |xs|
  {
    seq(|xs|, i requires 0 <= i < |xs| => xs[i] * volume)
  }

  /** Scaling a block bounded by `bound` by a non-negative volume bounds it by
      `bound * volume`. */
  lemma ScaleWithin(xs: seq<real>, bound: real, volume: real)
    requires Within(xs, bound) && 0.0 <= volume
    ensures Within(Scale(xs, volume), bound * volume)
  {
    forall i | 0 <= i < |xs|
      ensures -(bound * volume) <= Scale(xs, volume)[i] <= bound * volume
    {
      assert -bound <= xs[i] <= bound;
      ScaleBound(xs[i], bound, volume);
      assert Scale(xs, volume)[i] == xs[i] * volume;
    }
  }

  /** One pink step: every tap moves towards `w` by its own coefficient. */
  function PinkStep(taps: Taps, w: real): Taps
  {
    seq(7, k requires 0 <= k < 7 => PinkCoeffs[k] * (w - taps[k]) + taps[k])
  }

  function TapSum(taps: Taps): real
  {
    taps[0] + taps[1] + taps[2] + taps[3] + taps[4] + taps[5] + taps[6]
  }

  /** Pink: the taps are updated first, and their sum over 2.5 is the output. */
  function PinkRun(taps: Taps, ws: seq<real>): (r: Block<Taps>)
    ensures |r.out| == |ws|
    decreases |ws|
  {
    if |ws| == 0 then Block([], taps)
    else
      var prev := PinkRun(taps, ws[..|ws| - 1]);
      var next := PinkStep(prev.state, ws[|ws| - 1]);
      Block(prev.out + [TapSum(next) / 2.5], next)
  }

  /** The leaky integrator step; the division by 1.02 keeps it from drifting. */
  function BrownStep(acc: real, w: real): real
  {
    (acc + 0.02 * w) / 1.02
  }

  /** Brown: the accumulator is updated first and emitted times 3.5. */
  function BrownRun(acc: real, ws: seq<real>): (r: Block<real>)
    ensures |r.out| == |ws|
    decreases |ws|
  {
    if |ws| == 0 then Block([], acc)
    else
      var prev := BrownRun(acc, ws[..|ws| - 1]);
      var next := BrownStep(prev.state, ws[|ws| - 1]);
      Block(prev.out + [next * 3.5], next)
  }

  /** Blue emits the difference to the previous white sample, then remembers
      the current one. */
  function BlueRun(prev: real, ws: seq<real>): (r: Block<real>)
    ensures |r.out| == |ws|
    decreases |ws|
  {
    if |ws| == 0 then Block([], prev)
    else
      var before := BlueRun(prev, ws[..|ws| - 1]);
      var w := ws[|ws| - 1];
      Block(before.out + [w - before.state], w)
  }

  /** Violet emits the difference of consecutive first differences; it
      updates the previous difference before the previous white sample. */
  function VioletRun(mem: VioletMemory, ws: seq<real>): (r: Block<VioletMemory>)
    ensures |r.out| == |ws|
    decreases |ws|
  {
    if |ws| == 0 then Block([], mem)
    else
      var before := VioletRun(mem, ws[..|ws| - 1]);
      var w := ws[|ws| - 1];
      var blue := w - before.state.prevWhite;
      Block(before.out + [blue - before.state.prevBlue], VioletMemory(w, blue))
  }

  // ---------------------------------------------------------------------------
  // Closed forms of the difference colours
  // ---------------------------------------------------------------------------

  /** The white sample before position `i`: the remembered one for `i == 0`. */
  function Before(first: real, ws: seq<real>, i: int): real
    requires 0 <= i <= |ws|
  {
    if i == 0 then first else ws[i - 1]
  }

  /** The first difference at position `i` of the white stream. */
  function Diff(prevWhite: real, ws: seq<real>, i: int): real
    requires 0 <= i < |ws|
  {
    ws[i] - Before(prevWhite, ws, i)
  }

  /** The first difference before position `i`: the remembered one for `i == 0`. */
  function DiffBefore(mem: VioletMemory, ws: seq<real>, i: int): real
    requires 0 <= i <= |ws|
  {
    if i == 0 then mem.prevBlue else Diff(mem.prevWhite, ws, i - 1)
  }

  /** The history functions only look at the samples before `i`. */
  lemma HistoryOnPrefix(mem: VioletMemory, p: seq<real>, ws: seq<real>, i: int)
    requires |p| <= |ws| && p == ws[..|p|]
    requires 0 <= i <= |p|
    ensures Before(mem.prevWhite, p, i) == Before(mem.prevWhite, ws, i)
    ensures DiffBefore(mem, p, i) == DiffBefore(mem, ws, i)
    ensures i < |p| ==> p[i] == ws[i] && Diff(mem.prevWhite, p, i) == Diff(mem.prevWhite, ws, i)
  {
    if i > 0 {
      assert p[i - 1] == ws[i - 1];
      if i > 1 {
        assert p[i - 2] == ws[i - 2];
      }
    }
    if i < |p| {
      assert p[i] == ws[i];
    }
  }

  /** Blue is the first difference of the white stream, continued across
      blocks through the remembered sample. */
  lemma BlueRunIsFirstDifference(prev: real, ws: seq<real>)
    ensures forall i :: 0 <= i < |ws| ==> BlueRun(prev, ws).out[i] == ws[i] - Before(prev, ws, i)
    ensures BlueRun(prev, ws).state == Before(prev, ws, |ws|)
  {
    forall i | 0 <= i < |ws|
      ensures BlueRun(prev, ws).out[i] == ws[i] - Before(prev, ws, i)
    {
      BlueAt(prev, ws, i);
    }
  }

  lemma {:induction false} BlueAt(prev: real, ws: seq<real>, i: nat)
    requires i < |ws|
    ensures BlueRun(prev, ws).out[i] == ws[i] - Before(prev, ws, i)
    decreases |ws|
  {
    var n := |ws| - 1;
    var p := ws[..n];
    var before := BlueRun(prev, p);
    assert BlueRun(prev, ws).out == before.out + [ws[n] - before.state];
    HistoryOnPrefix(VioletMemory(prev, 0.0), p, ws, if i < n then i else n);
    if i < n {
      BlueAt(prev, p, i);
    }
  }

  /** Violet is the second difference of the white stream. */
  lemma VioletRunIsSecondDifference(mem: VioletMemory, ws: seq<real>)
    ensures forall i :: 0 <= i < |ws| ==>
              VioletRun(mem, ws).out[i] == Diff(mem.prevWhite, ws, i) - DiffBefore(mem, ws, i)
    ensures VioletRun(mem, ws).state == VioletMemory(Before(mem.prevWhite, ws, |ws|), DiffBefore(mem, ws, |ws|))
  {
    forall i | 0 <= i < |ws|
      ensures VioletRun(mem, ws).out[i] == Diff(mem.prevWhite, ws, i) - DiffBefore(mem, ws, i)
    {
      VioletAt(mem, ws, i);
    }
    VioletState(mem, ws);
  }

  lemma {:induction false} VioletState(mem: VioletMemory, ws: seq<real>)
    ensures VioletRun(mem, ws).state == VioletMemory(Before(mem.prevWhite, ws, |ws|), DiffBefore(mem, ws, |ws|))
    decreases |ws|
  {
    if |ws| > 0 {
      var n := |ws| - 1;
      var p := ws[..n];
      VioletState(mem, p);
      HistoryOnPrefix(mem, p, ws, n);
    }
  }

  lemma {:induction false} VioletAt(mem: VioletMemory, ws: seq<real>, i: nat)
    requires i < |ws|
    ensures VioletRun(mem, ws).out[i] == Diff(mem.prevWhite, ws, i) - DiffBefore(mem, ws, i)
    decreases |ws|
  {
    var n := |ws| - 1;
    var p := ws[..n];
    var before := VioletRun(mem, p);
    var blue := ws[n] - before.state.prevWhite;
    assert VioletRun(mem, ws).out == before.out + [blue - before.state.prevBlue];
    if i < n {
      VioletAt(mem, p, i);
      HistoryOnPrefix(mem, p, ws, i);
    } else {
      VioletState(mem, p);
      HistoryOnPrefix(mem, p, ws, n);
    }
  }

  // ---------------------------------------------------------------------------
  // Boundedness of the recurrences
  // ---------------------------------------------------------------------------

  predicate TapsBounded(taps: Taps)
  {
    forall k :: 0 <= k < 7 ==> -1.0 <= taps[k] <= 1.0
  }

  lemma PinkCoeffInUnit(k: int)
    requires 0 <= k < 7
    ensures 0.0 < PinkCoeffs[k] < 1.0
  {
    if k == 0 {
    } else if k == 1 {
    } else if k == 2 {
    } else if k == 3 {
    } else if k == 4 {
    } else if k == 5 {
    } else {
    }
  }

  /** Moving `s` towards `w` by a fraction `c` of the gap stays in [-1, 1]. */
  lemma ConvexStep(c: real, w: real, s: real)
    requires 0.0 <= c <= 1.0
    requires -1.0 <= w <= 1.0 && -1.0 <= s <= 1.0
    ensures -1.0 <= c * (w - s) + s <= 1.0
  {
    var d := w - s;
    if d >= 0.0 {
      assert 0.0 <= c * d;
      assert c * d <= d by {
        assert (1.0 - c) * d >= 0.0;
      }
    } else {
      assert c * d <= 0.0;
      assert d <= c * d by {
        assert (1.0 - c) * d <= 0.0;
      }
    }
  }

  /** Each pink tap stays in [-1, 1], because every coefficient lies in (0, 1). */
  lemma PinkStepBounded(taps: Taps, w: real)
    requires TapsBounded(taps)
    requires -1.0 <= w <= 1.0
    ensures TapsBounded(PinkStep(taps, w))
  {
    forall k | 0 <= k < 7
      ensures -1.0 <= PinkStep(taps, w)[k] <= 1.0
    {
      PinkCoeffInUnit(k);
      ConvexStep(PinkCoeffs[k], w, taps[k]);
    }
  }

  lemma TapSumBounded(taps: Taps)
    requires TapsBounded(taps)
    ensures -7.0 <= TapSum(taps) <= 7.0
    ensures -2.8 <= TapSum(taps) / 2.5 <= 2.8
  {
    assert -1.0 <= taps[0] <= 1.0 && -1.0 <= taps[1] <= 1.0 && -1.0 <= taps[2] <= 1.0;
    assert -1.0 <= taps[3] <= 1.0 && -1.0 <= taps[4] <= 1.0;
    assert -1.0 <= taps[5] <= 1.0 && -1.0 <= taps[6] <= 1.0;
  }

  /** Pink keeps its taps in [-1, 1] and its output within 7/2.5 = 2.8. */
  lemma {:induction false} PinkRunBounded(taps: Taps, ws: seq<real>)
    requires TapsBounded(taps) && WhiteBounded(ws)
    ensures TapsBounded(PinkRun(taps, ws).state)
    ensures Within(PinkRun(taps, ws).out, 2.8)
    decreases |ws|
  {
    if |ws| > 0 {
      var n := |ws| - 1;
      var p := ws[..n];
      assert WhiteBounded(p);
      var prev := PinkRun(taps, p);
      PinkRunBounded(taps, p);
      var next := PinkStep(prev.state, ws[n]);
      PinkStepBounded(prev.state, ws[n]);
      TapSumBounded(next);
      var r := PinkRun(taps, ws);
      assert r.out[..n] == prev.out;
      forall i | 0 <= i < n
        ensures -2.8 <= r.out[i] <= 2.8
      {
        assert r.out[i] == prev.out[i];
      }
    }
  }

  /** The brown accumulator stays in [-1, 1], so its output stays within 3.5. */
  lemma {:induction false} BrownRunBounded(acc: real, ws: seq<real>)
    requires -1.0 <= acc <= 1.0 && WhiteBounded(ws)
    ensures -1.0 <= BrownRun(acc, ws).state <= 1.0
    ensures Within(BrownRun(acc, ws).out, 3.5)
    decreases |ws|
  {
    if |ws| > 0 {
      var n := |ws| - 1;
      var p := ws[..n];
      assert WhiteBounded(p);
      BrownRunBounded(acc, p);
      var prev := BrownRun(acc, p);
      var r := BrownRun(acc, ws);
      assert r.out[..n] == prev.out;
      forall i | 0 <= i < n
        ensures -3.5 <= r.out[i] <= 3.5
      {
        assert r.out[i] == prev.out[i];
      }
    }
  }

  /** Blue remembers a sample in [-1, 1] and emits at most 2 in magnitude. */
  lemma {:induction false} BlueRunBounded(prev: real, ws: seq<real>)
    requires -1.0 <= prev <= 1.0 && WhiteBounded(ws)
    ensures -1.0 <= BlueRun(prev, ws).state <= 1.0
    ensures Within(BlueRun(prev, ws).out, 2.0)
  {
    BlueRunIsFirstDifference(prev, ws);
    forall i | 0 <= i < |ws|
      ensures -2.0 <= BlueRun(prev, ws).out[i] <= 2.0
    {
      assert -1.0 <= ws[i] <= 1.0;
      assert -1.0 <= Before(prev, ws, i) <= 1.0;
    }
  }

  predicate VioletCalm(mem: VioletMemory)
  {
    -1.0 <= mem.prevWhite <= 1.0 && -2.0 <= mem.prevBlue <= 2.0
  }

  /** Violet keeps its memory bounded and emits at most 4 in magnitude. */
  lemma {:induction false} VioletRunBounded(mem: VioletMemory, ws: seq<real>)
    requires VioletCalm(mem) && WhiteBounded(ws)
    ensures VioletCalm(VioletRun(mem, ws).state)
    ensures Within(VioletRun(mem, ws).out, 4.0)
  {
    VioletRunIsSecondDifference(mem, ws);
    forall i | 0 <= i <= |ws|
      ensures -1.0 <= Before(mem.prevWhite, ws, i) <= 1.0
      ensures -2.0 <= DiffBefore(mem, ws, i) <= 2.0
    {
      if i > 0 {
        assert -1.0 <= ws[i - 1] <= 1.0;
        assert -1.0 <= Before(mem.prevWhite, ws, i - 1) <= 1.0 by {
          if i > 1 {
            assert -1.0 <= ws[i - 2] <= 1.0;
          }
        }
      }
    }
    forall i | 0 <= i < |ws|
      ensures -4.0 <= VioletRun(mem, ws).out[i] <= 4.0
    {
      assert -1.0 <= ws[i] <= 1.0;
      assert -1.0 <= Before(mem.prevWhite, ws, i) <= 1.0;
      assert -2.0 <= DiffBefore(mem, ws, i) <= 2.0;
    }
  }
}
