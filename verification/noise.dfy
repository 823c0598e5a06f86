/** The coloured-noise generator of internal/noise/generator.go.

    Five colours are produced from a stream of white samples: white itself, a
    seven-pole pink filter, a leaky brown integrator, blue (first difference)
    and violet (second difference). A 0-100 colour slider picks one colour or
    crossfades two adjacent ones. Every colour with memory keeps it in two
    independent slots, so a colour can be the high side of a crossfade without
    disturbing the state it uses when it is selected on its own.

    The random source is a stream of white samples `w` (Go draws
    `rng.Float64()*2 - 1`, which lies in [-1, 1)); the generator keeps a cursor
    into it. */
module Noise {
  import opened Common
  import opened NoiseColors

  datatype Color = Brown | Pink | White | Blue | Violet

  /** Which copy of a colour's recursive state a block uses. */
  datatype Slot = Primary | Secondary

  /** The recursive state one slot holds for every colour; white has none. */
  datatype Voices = Voices(pink: Taps, brown: real, bluePrev: real, violet: VioletMemory)

  const SilentVoices: Voices := Voices(ZeroTaps, 0.0, 0.0, VioletMemory(0.0, 0.0))

  /** The random source: the i-th white sample it will deliver. */
  type WhiteSource = nat -> real

  /** `drawn` counts the white samples consumed from `source` so far. */
  datatype Generator = Generator(sampleRate: int, source: WhiteSource, drawn: nat,
                                 primary: Voices, secondary: Voices)

  /** A generator as NewGenerator builds it: every accumulator zero. */
  function NewGenerator(sampleRate: int, source: WhiteSource): (g: Generator)
    ensures g.drawn == 0 && g.source == source && g.sampleRate == sampleRate
    ensures g.primary == SilentVoices && g.secondary == SilentVoices
    ensures g.primary.pink == ZeroTaps && g.primary.brown == 0.0 && g.primary.bluePrev == 0.0
    ensures g.primary.violet.prevWhite == 0.0 && g.primary.violet.prevBlue == 0.0
    ensures Calm(g.primary) && Calm(g.secondary)
  {
    Generator(sampleRate, source, 0, SilentVoices, SilentVoices)
  }

  /** Reseed swaps the random source and touches no accumulator. */
  function Reseed(g: Generator, source: WhiteSource): (g': Generator)
    ensures g'.source == source && g'.drawn == 0
    ensures g'.primary == g.primary && g'.secondary == g.secondary
    ensures g'.sampleRate == g.sampleRate
  {
    g.(source := source, drawn := 0)
  }

  // ---------------------------------------------------------------------------
  // Slider to colour selection
  // ---------------------------------------------------------------------------

  datatype Anchor = Anchor(pos: real, color: Color)

  const Anchors: seq<Anchor> :=
    [Anchor(0.0, Brown), Anchor(25.0, Pink), Anchor(50.0, White), Anchor(75.0, Blue), Anchor(100.0, Violet)]

  /** The outcome of the slider scan: one colour from its primary slot, or a
      crossfade with weight `t` towards `hi`. */
  datatype Selection = Pure(color: Color) | Blend(lo: Color, hi: Color, t: real)

  lemma AnchorGap(i: nat)
    requires i < |Anchors| - 1
    ensures Anchors[i].pos == 25.0 * i as real
    ensures Anchors[i + 1].pos == Anchors[i].pos + 25.0
  {
    if i == 0 {
    } else if i == 1 {
    } else if i == 2 {
    } else {
    }
  }

  /** The scan over adjacent anchor pairs starting at pair `i`; running off the
      end falls back to white. */
  function SelectFrom(s: real, i: nat): Selection
    decreases |Anchors| - i
  {
    if i >= |Anchors| - 1 then Pure(White)
    else
      var lo := Anchors[i];
      var hi := Anchors[i + 1];
      if lo.pos <= s <= hi.pos then
        AnchorGap(i);
        var t := (s - lo.pos) / (hi.pos - lo.pos);
        if t <= 0.001 then Pure(lo.color)
        else if t >= 0.999 then Pure(hi.color)
        else Blend(lo.color, hi.color, t)
      else
        SelectFrom(s, i + 1)
  }

  /** The branch GenerateBlended takes for a slider value. */
  function Select(s: real): Selection
  {
    if s <= 0.0 then Pure(Brown)
    else if s >= 100.0 then Pure(Violet)
    else SelectFrom(s, 0)
  }

  /** The selection written out region by region: a pure colour within 0.025
      of its anchor, otherwise a crossfade of the two bracketing anchors. */
  function ReferenceSelect(s: real): Selection
  {
    if s <= 0.025 then Pure(Brown)
    else if s < 24.975 then Blend(Brown, Pink, s / 25.0)
    else if s <= 25.025 then Pure(Pink)
    else if s < 49.975 then Blend(Pink, White, (s - 25.0) / 25.0)
    else if s <= 50.025 then Pure(White)
    else if s < 74.975 then Blend(White, Blue, (s - 50.0) / 25.0)
    else if s <= 75.025 then Pure(Blue)
    else if s < 99.975 then Blend(Blue, Violet, (s - 75.0) / 25.0)
    else Pure(Violet)
  }

  /** The anchor scan agrees with the region-by-region selection on every
      slider value; in particular the white fallback after the scan is never
      what a value strictly between 0 and 100 gets, since the reference only
      yields white within 0.025 of 50. */
  lemma SelectMatchesReference(s: real)
    ensures Select(s) == ReferenceSelect(s)
  {
    if s <= 0.0 || s >= 100.0 {
    } else if s <= 25.0 {
      SelectFromHit(s, 0);
    } else if s <= 50.0 {
      SelectFromSkip(s, 0);
      SelectFromHit(s, 1);
    } else if s <= 75.0 {
      SelectFromSkip(s, 0);
      SelectFromSkip(s, 1);
      SelectFromHit(s, 2);
    } else {
      SelectFromSkip(s, 0);
      SelectFromSkip(s, 1);
      SelectFromSkip(s, 2);
      SelectFromHit(s, 3);
    }
  }

  /** The scan passes over a pair whose upper anchor lies below the slider. */
  lemma SelectFromSkip(s: real, i: nat)
    requires i < |Anchors| - 1 && s > 25.0 * (i + 1) as real
    ensures SelectFrom(s, i) == SelectFrom(s, i + 1)
  {
    AnchorGap(i);
  }

  /** The scan stops at the pair that brackets the slider. */
  lemma SelectFromHit(s: real, i: nat)
    requires i < |Anchors| - 1 && 25.0 * i as real <= s <= 25.0 * (i + 1) as real
    ensures var t := (s - 25.0 * i as real) / 25.0;
            SelectFrom(s, i) == if t <= 0.001 then Pure(Anchors[i].color)
                                else if t >= 0.999 then Pure(Anchors[i + 1].color)
                                else Blend(Anchors[i].color, Anchors[i + 1].color, t)
  {
    AnchorGap(i);
  }

  /** A crossfade always mixes two adjacent anchors that bracket the slider,
      with a weight strictly inside (0.001, 0.999). */
  lemma SelectedBlendBrackets(s: real)
    requires Select(s).Blend?
    ensures 0.0 < s < 100.0
    ensures 0.001 < Select(s).t < 0.999
    ensures exists k :: 0 <= k < |Anchors| - 1 && Anchors[k].color == Select(s).lo
              && Anchors[k + 1].color == Select(s).hi && Anchors[k].pos < s < Anchors[k + 1].pos
              && Select(s).t == (s - Anchors[k].pos) / 25.0
  {
    SelectMatchesReference(s);
    AnchorGap(0);
    AnchorGap(1);
    AnchorGap(2);
    AnchorGap(3);
    if s < 25.0 {
      assert Anchors[0].pos < s < Anchors[1].pos;
    } else if s < 50.0 {
      assert Anchors[1].pos < s < Anchors[2].pos;
    } else if s < 75.0 {
      assert Anchors[2].pos < s < Anchors[3].pos;
    } else {
      assert Anchors[3].pos < s < Anchors[4].pos;
    }
  }

  /** The anchor positions themselves select the pure anchor colour. */
  lemma AnchorsArePure()
    ensures forall k :: 0 <= k < |Anchors| ==> Select(Anchors[k].pos) == Pure(Anchors[k].color)
  {
    forall k | 0 <= k < |Anchors|
      ensures Select(Anchors[k].pos) == Pure(Anchors[k].color)
    {
      SelectMatchesReference(Anchors[k].pos);
    }
  }

  // ---------------------------------------------------------------------------
  // Colours on slots, and the generator
  // ---------------------------------------------------------------------------

  /** `v'` holds the same state as `v` for colour `c`. */
  predicate Keeps(v: Voices, v': Voices, c: Color)
  {
    match c
    case White => true
    case Pink => v'.pink == v.pink
    case Brown => v'.brown == v.brown
    case Blue => v'.bluePrev == v.bluePrev
    case Violet => v'.violet == v.violet
  }

  /** Every remembered value of a slot is within the range the recurrences keep. */
  predicate Calm(v: Voices)
  {
    TapsBounded(v.pink) && -1.0 <= v.brown <= 1.0 && -1.0 <= v.bluePrev <= 1.0 && VioletCalm(v.violet)
  }

  /** One colour's recurrence run over a block on one slot's state, each
      output scaled by the volume. */
  function RunColor(v: Voices, c: Color, ws: seq<real>, volume: real): (r: Block<Voices>)
    ensures |r.out| == |ws|
    ensures forall other :: other != c ==> Keeps(v, r.state, other)
  {
    match c
    case White => Block(Scale(ws, volume), v)
    case Pink =>
      var r := PinkRun(v.pink, ws);
      Block(Scale(r.out, volume), v.(pink := r.state))
    case Brown =>
      var r := BrownRun(v.brown, ws);
      Block(Scale(r.out, volume), v.(brown := r.state))
    case Blue =>
      var r := BlueRun(v.bluePrev, ws);
      Block(Scale(r.out, volume), v.(bluePrev := r.state))
    case Violet =>
      var r := VioletRun(v.violet, ws);
      Block(Scale(r.out, volume), v.(violet := r.state))
  }

  /** Every colour keeps a calm slot calm and stays within four times the volume. */
  lemma RunColorBounded(v: Voices, c: Color, ws: seq<real>, volume: real)
    requires Calm(v) && WhiteBounded(ws) && 0.0 <= volume
    ensures Calm(RunColor(v, c, ws, volume).state)
    ensures Within(RunColor(v, c, ws, volume).out, 4.0 * volume)
  {
    var raw: seq<real>;
    match c {
      case White =>
        raw := ws;
      case Pink =>
        PinkRunBounded(v.pink, ws);
        raw := PinkRun(v.pink, ws).out;
      case Brown =>
        BrownRunBounded(v.brown, ws);
        raw := BrownRun(v.brown, ws).out;
      case Blue =>
        BlueRunBounded(v.bluePrev, ws);
        raw := BlueRun(v.bluePrev, ws).out;
      case Violet =>
        VioletRunBounded(v.violet, ws);
        raw := VioletRun(v.violet, ws).out;
    }
    assert RunColor(v, c, ws, volume).out == Scale(raw, volume);
    assert Within(raw, 4.0) by {
      forall i | 0 <= i < |raw|
        ensures -4.0 <= raw[i] <= 4.0
      {
      }
    }
    ScaleWithin(raw, 4.0, volume);
  }

  function VoicesOf(g: Generator, slot: Slot): Voices
  {
    if slot == Primary then g.primary else g.secondary
  }

  function Other(slot: Slot): Slot
  {
    if slot == Primary then Secondary else Primary
  }

  /** The next `n` white samples of `source` from position `from`. */
  function Draws(source: WhiteSource, from: nat, n: nat): (ws: seq<real>)
    ensures |ws| == n
    ensures forall i :: 0 <= i < n ==> ws[i] == source(from + i)
  {
    seq(n, i requires 0 <= i < n => source(from + i))
  }

  /** generateColor: run colour `c` for `n` samples on the chosen slot. */
  function GenerateColor(g: Generator, c: Color, slot: Slot, n: nat, volume: real): (r: Block<Generator>)
    ensures |r.out| == n
    ensures r.state.source == g.source && r.state.drawn == g.drawn + n
    ensures r.state.sampleRate == g.sampleRate
    ensures VoicesOf(r.state, Other(slot)) == VoicesOf(g, Other(slot))
    ensures forall other :: other != c ==> Keeps(VoicesOf(g, slot), VoicesOf(r.state, slot), other)
  {
    var run := RunColor(VoicesOf(g, slot), c, Draws(g.source, g.drawn, n), volume);
    var g' := if slot == Primary then g.(primary := run.state) else g.(secondary := run.state);
    Block(run.out, g'.(drawn := g.drawn + n))
  }

  /** Generate: a colour from its primary slot. */
  function Generate(g: Generator, c: Color, n: nat, volume: real): (r: Block<Generator>)
    ensures |r.out| == n
    ensures r.state.secondary == g.secondary
    ensures forall other :: other != c ==> Keeps(g.primary, r.state.primary, other)
  {
    GenerateColor(g, c, Primary, n, volume)
  }

  /** The crossfade `a[j]*(1-t) + b[j]*t`. */
  function Crossfade(a: seq<real>, b: seq<real>, t: real): (r: seq<real>)
    requires |a| == |b|
    ensures |r| == |a|
    ensures forall j :: 0 <= j < |a| ==> r[j] == a[j] * (1.0 - t) + b[j] * t
  {
    seq(|a|, j requires 0 <= j < |a| => a[j] * (1.0 - t) + b[j] * t)
  }

  /** A crossfade with weight in [0, 1] of two bounded blocks is bounded by the same bound. */
  lemma CrossfadeBounded(a: seq<real>, b: seq<real>, t: real, bound: real)
    requires |a| == |b| && 0.0 <= t <= 1.0
    requires Within(a, bound) && Within(b, bound)
    ensures Within(Crossfade(a, b, t), bound)
  {
    forall j | 0 <= j < |a|
      ensures -bound <= Crossfade(a, b, t)[j] <= bound
    {
      assert -bound <= a[j] <= bound && -bound <= b[j] <= bound;
      WeightedBound(a[j], b[j], t, bound);
      assert Crossfade(a, b, t)[j] == a[j] * (1.0 - t) + b[j] * t;
    }
  }

  /** GenerateBlended: the colours the slider selects, rendered. */
  function GenerateBlended(g: Generator, slider: real, n: nat, volume: real): (r: Block<Generator>)
    ensures |r.out| == n
    ensures r.state.source == g.source && r.state.sampleRate == g.sampleRate
  {
    Render(g, Select(slider), n, volume)
  }

  /** The two branches of GenerateBlended: a pure colour from its primary
      slot, or the low colour from its primary slot crossfaded with the high
      colour from its secondary slot. */
  function Render(g: Generator, sel: Selection, n: nat, volume: real): (r: Block<Generator>)
    ensures |r.out| == n
    ensures r.state.source == g.source && r.state.sampleRate == g.sampleRate
  {
    match sel
    case Pure(c) => GenerateColor(g, c, Primary, n, volume)
    case Blend(lo, hi, t) =>
      var a := GenerateColor(g, lo, Primary, n, volume);
      var b := GenerateColor(a.state, hi, Secondary, n, volume);
      Block(Crossfade(a.out, b.out, t), b.state)
  }

  /** At or below 0 the slider gives pure brown, at or above 100 pure violet,
      each from its primary slot. */
  lemma BlendedAtEnds(g: Generator, slider: real, n: nat, volume: real)
    ensures slider <= 0.0 ==> GenerateBlended(g, slider, n, volume) == GenerateColor(g, Brown, Primary, n, volume)
    ensures slider >= 100.0 ==> GenerateBlended(g, slider, n, volume) == GenerateColor(g, Violet, Primary, n, volume)
  {
  }

  /** Exactly at an anchor the anchor's colour is produced from its primary slot. */
  lemma BlendedAtAnchors(g: Generator, k: nat, n: nat, volume: real)
    requires k < |Anchors|
    ensures GenerateBlended(g, Anchors[k].pos, n, volume) == GenerateColor(g, Anchors[k].color, Primary, n, volume)
  {
    AnchorsArePure();
  }

  /** In a crossfade the low colour runs on its primary slot, the high colour
      on its secondary slot, and nothing else changes: the primary slot keeps
      every colour but the low one, the secondary slot every colour but the
      high one. */
  lemma BlendedCrossfade(g: Generator, slider: real, n: nat, volume: real, lo: Color, hi: Color, t: real)
    requires Select(slider) == Blend(lo, hi, t)
    ensures var a := GenerateColor(g, lo, Primary, n, volume);
            var b := GenerateColor(a.state, hi, Secondary, n, volume);
            var r := GenerateBlended(g, slider, n, volume);
            && lo != hi
            && r.out == Crossfade(a.out, b.out, t)
            && r.state == b.state
            && r.state.drawn == g.drawn + 2 * n
            && (forall c :: c != lo ==> Keeps(g.primary, r.state.primary, c))
            && (forall c :: c != hi ==> Keeps(g.secondary, r.state.secondary, c))
  {
    BlendIsOfTwoColors(slider);
    assert GenerateBlended(g, slider, n, volume) == Render(g, Blend(lo, hi, t), n, volume);
    RenderCrossfade(g, n, volume, lo, hi, t);
  }

  lemma RenderCrossfade(g: Generator, n: nat, volume: real, lo: Color, hi: Color, t: real)
    requires lo != hi
    ensures var a := GenerateColor(g, lo, Primary, n, volume);
            var b := GenerateColor(a.state, hi, Secondary, n, volume);
            var r := Render(g, Blend(lo, hi, t), n, volume);
            && r.out == Crossfade(a.out, b.out, t)
            && r.state == b.state
            && r.state.drawn == g.drawn + 2 * n
            && (forall c :: c != lo ==> Keeps(g.primary, r.state.primary, c))
            && (forall c :: c != hi ==> Keeps(g.secondary, r.state.secondary, c))
  {
    var a := GenerateColor(g, lo, Primary, n, volume);
    var b := GenerateColor(a.state, hi, Secondary, n, volume);
    var r := Render(g, Blend(lo, hi, t), n, volume);
    assert r == Block(Crossfade(a.out, b.out, t), b.state);
  }

  /** A crossfade never mixes a colour with itself. */
  lemma BlendIsOfTwoColors(s: real)
    requires Select(s).Blend?
    ensures Select(s).lo != Select(s).hi
  {
    SelectMatchesReference(s);
  }

  /** A source that only delivers samples in [-1, 1). */
  ghost predicate WhiteInRange(source: WhiteSource)
  {
    forall i: nat :: -1.0 <= source(i) < 1.0
  }

  /** With white samples in range and calm slots, every generated sample is
      within four times the volume and both slots stay calm. */
  lemma BlendedBounded(g: Generator, slider: real, n: nat, volume: real)
    requires WhiteInRange(g.source) && Calm(g.primary) && Calm(g.secondary) && 0.0 <= volume
    ensures var r := GenerateBlended(g, slider, n, volume);
            && Calm(r.state.primary) && Calm(r.state.secondary)
            && Within(r.out, 4.0 * volume)
  {
    match Select(slider)
    case Pure(c) =>
      ColorBounded(g, c, Primary, n, volume);
    case Blend(lo, hi, t) =>
      SelectedBlendBrackets(slider);
      var a := GenerateColor(g, lo, Primary, n, volume);
      ColorBounded(g, lo, Primary, n, volume);
      ColorBounded(a.state, hi, Secondary, n, volume);
      var b := GenerateColor(a.state, hi, Secondary, n, volume);
      CrossfadeBounded(a.out, b.out, t, 4.0 * volume);
  }

  lemma ColorBounded(g: Generator, c: Color, slot: Slot, n: nat, volume: real)
    requires WhiteInRange(g.source) && Calm(g.primary) && Calm(g.secondary) && 0.0 <= volume
    ensures var r := GenerateColor(g, c, slot, n, volume);
            && Calm(r.state.primary) && Calm(r.state.secondary)
            && Within(r.out, 4.0 * volume)
  {
    var ws := Draws(g.source, g.drawn, n);
    assert WhiteBounded(ws);
    RunColorBounded(VoicesOf(g, slot), c, ws, volume);
  }
}
