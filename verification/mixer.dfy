/** The mixer of internal/mixer/mixer.go: one noise generator, a low and a
    high shelf per stereo channel, the user settings, and the smoothed master
    volume that ramps toward its target one sample frame at a time.

    The Go mixer is a mutable object behind a mutex; here it is a value and
    each operation returns the updated value. */
module Mixer {
  import opened Common
  import opened Noise
  import opened Filter

  /** Per-frame smoothing factor of the master volume. */
  const SmoothingRate: real := 0.001
  /** Corner frequency of the bass (low) shelf, in Hz. */
  const BassFreq: real := 300.0
  /** Corner frequency of the treble (high) shelf, in Hz. */
  const TrebleFreq: real := 3000.0

  /** `design` is the coefficient formula every shelf of this mixer uses. */
  datatype MixerState = MixerState(
    design: Design,
    gen: Generator,
    sampleRate: int,
    power: bool,
    masterVolume: real,
    targetVolume: real,
    colorSlider: real,
    bassGain: real,
    trebleGain: real,
    lowL: Biquad,
    lowR: Biquad,
    highL: Biquad,
    highR: Biquad)

  /** sliderToGainDB: the -100..+100 tone slider to -12..+12 dB. */
  function SliderToGainDB(slider: real): (g: real)
    ensures -100.0 <= slider <= 100.0 ==> -12.0 <= g <= 12.0
    ensures (g < 0.0 <==> slider < 0.0) && (g == 0.0 <==> slider == 0.0)
  {
    slider / 100.0 * 12.0
  }

  /** The slider is linear: the ends are +-12 dB, the centre is flat, and a
      larger slider never gives less gain. */
  lemma SliderToGainDBLinear(s1: real, s2: real)
    ensures SliderToGainDB(100.0) == 12.0 && SliderToGainDB(-100.0) == -12.0
    ensures s1 <= s2 ==> SliderToGainDB(s1) <= SliderToGainDB(s2)
    ensures SliderToGainDB(s1 + s2) == SliderToGainDB(s1) + SliderToGainDB(s2)
  {
  }

  /** `b` is a shelf of the given kind at `f0`, tuned to the tone slider. */
  predicate TunedShelf(design: Design, b: Biquad, shelf: ShelfType, f0: real, sampleRate: int, slider: real)
  {
    && b.shelf == shelf && b.f0 == f0 && b.sampleRate == sampleRate as real
    && b.coeffs == design(shelf, f0, sampleRate as real, SliderToGainDB(slider))
  }

  /** The invariant every operation keeps: settings inside their slider
      ranges, the audible volume inside [0, 1], and all four shelves tuned to
      the current bass and treble settings. */
  predicate Valid(m: MixerState)
  {
    && 0.0 <= m.masterVolume <= 1.0
    && 0.0 <= m.targetVolume <= 1.0
    && 0.0 <= m.colorSlider <= 100.0
    && -100.0 <= m.bassGain <= 100.0
    && -100.0 <= m.trebleGain <= 100.0
    && TunedShelf(m.design, m.lowL, LowShelf, BassFreq, m.sampleRate, m.bassGain)
    && TunedShelf(m.design, m.lowR, LowShelf, BassFreq, m.sampleRate, m.bassGain)
    && TunedShelf(m.design, m.highL, HighShelf, TrebleFreq, m.sampleRate, m.trebleGain)
    && TunedShelf(m.design, m.highR, HighShelf, TrebleFreq, m.sampleRate, m.trebleGain)
  }

  /** The left and right channels carry the same filter state, so they
      produce the same samples from the same mono input. */
  predicate Symmetric(m: MixerState)
  {
    m.lowL == m.lowR && m.highL == m.highR
  }

  /** NewMixer: power off, both volumes at 0.5, the slider on pink, flat
      tone, and all four shelves with silent registers. */
  function NewMixer(design: Design, sampleRate: int, source: WhiteSource): (m: MixerState)
    ensures Valid(m) && Symmetric(m)
    ensures !m.power && m.masterVolume == 0.5 && m.targetVolume == 0.5
    ensures m.colorSlider == 25.0 && Select(m.colorSlider) == Pure(Pink)
    ensures m.bassGain == 0.0 && m.trebleGain == 0.0
    ensures m.gen == NewGenerator(sampleRate, source)
    ensures m.lowL == NewShelf(design, LowShelf, BassFreq, 0.0, sampleRate as real)
    ensures m.highL == NewShelf(design, HighShelf, TrebleFreq, 0.0, sampleRate as real)
    ensures m.lowL.x1 == 0.0 && m.lowL.x2 == 0.0 && m.lowL.y1 == 0.0 && m.lowL.y2 == 0.0
    ensures m.highL.x1 == 0.0 && m.highL.x2 == 0.0 && m.highL.y1 == 0.0 && m.highL.y2 == 0.0
  {
    var low := NewShelf(design, LowShelf, BassFreq, 0.0, sampleRate as real);
    var high := NewShelf(design, HighShelf, TrebleFreq, 0.0, sampleRate as real);
    assert Select(25.0) == Pure(Pink) by {
      SelectMatchesReference(25.0);
    }
    MixerState(design, NewGenerator(sampleRate, source), sampleRate, false, 0.5, 0.5, 25.0,
               0.0, 0.0, low, low, high, high)
  }

  /** Everything that makes sound, as opposed to the settings. */
  ghost predicate SameAudio(m: MixerState, m': MixerState)
  {
    && m'.design == m.design && m'.gen == m.gen && m'.sampleRate == m.sampleRate
    && m'.masterVolume == m.masterVolume
  }

  /** Every setting except the named one is unchanged. */
  ghost predicate SameSettingsBut(m: MixerState, m': MixerState, power: bool, target: bool, color: bool,
                                  bass: bool, treble: bool)
  {
    && (power || m'.power == m.power)
    && (target || m'.targetVolume == m.targetVolume)
    && (color || m'.colorSlider == m.colorSlider)
    && (bass || (m'.bassGain == m.bassGain && m'.lowL == m.lowL && m'.lowR == m.lowR))
    && (treble || (m'.trebleGain == m.trebleGain && m'.highL == m.highL && m'.highR == m.highR))
  }

  function SetPower(m: MixerState, on: bool): (m': MixerState)
    ensures GetPower(m') == on
    ensures SameAudio(m, m') && SameSettingsBut(m, m', true, false, false, false, false)
    ensures Valid(m) ==> Valid(m')
    ensures Symmetric(m) ==> Symmetric(m')
  {
    m.(power := on)
  }

  function GetPower(m: MixerState): bool
  {
    m.power
  }

  /** SetMasterVolume sets only the target; the audible volume follows it in
      Mix. Out-of-range requests are clamped to [0, 1]. */
  function SetMasterVolume(m: MixerState, volume: real): (m': MixerState)
    ensures 0.0 <= GetMasterVolume(m') <= 1.0
    ensures 0.0 <= volume <= 1.0 ==> GetMasterVolume(m') == volume
    ensures volume < 0.0 ==> GetMasterVolume(m') == 0.0
    ensures volume > 1.0 ==> GetMasterVolume(m') == 1.0
    ensures SameAudio(m, m') && SameSettingsBut(m, m', false, true, false, false, false)
    ensures Valid(m) ==> Valid(m')
    ensures Symmetric(m) ==> Symmetric(m')
  {
    m.(targetVolume := Clamp(volume, 0.0, 1.0))
  }

  /** GetMasterVolume reports the target, not the ramping audible volume. */
  function GetMasterVolume(m: MixerState): real
  {
    m.targetVolume
  }

  /** SetColor clamps the slider to [0, 100]. */
  function SetColor(m: MixerState, value: real): (m': MixerState)
    ensures 0.0 <= GetColor(m') <= 100.0
    ensures 0.0 <= value <= 100.0 ==> GetColor(m') == value
    ensures value < 0.0 ==> GetColor(m') == 0.0
    ensures value > 100.0 ==> GetColor(m') == 100.0
    ensures SameAudio(m, m') && SameSettingsBut(m, m', false, false, true, false, false)
    ensures Valid(m) ==> Valid(m')
    ensures Symmetric(m) ==> Symmetric(m')
  {
    m.(colorSlider := Clamp(value, 0.0, 100.0))
  }

  function GetColor(m: MixerState): real
  {
    m.colorSlider
  }

  /** SetBass clamps the slider to [-100, 100] and retunes both low shelves
      to the new gain, keeping their delay registers. */
  function SetBass(m: MixerState, value: real): (m': MixerState)
    ensures -100.0 <= GetBass(m') <= 100.0
    ensures -100.0 <= value <= 100.0 ==> GetBass(m') == value
    ensures value < -100.0 ==> GetBass(m') == -100.0
    ensures value > 100.0 ==> GetBass(m') == 100.0
    ensures m'.lowL.coeffs == m.design(m.lowL.shelf, m.lowL.f0, m.lowL.sampleRate, SliderToGainDB(GetBass(m')))
    ensures m'.lowL.x1 == m.lowL.x1 && m'.lowL.x2 == m.lowL.x2 && m'.lowL.y1 == m.lowL.y1 && m'.lowL.y2 == m.lowL.y2
    ensures m'.lowR.x1 == m.lowR.x1 && m'.lowR.x2 == m.lowR.x2 && m'.lowR.y1 == m.lowR.y1 && m'.lowR.y2 == m.lowR.y2
    ensures SameAudio(m, m') && SameSettingsBut(m, m', false, false, false, true, false)
    ensures Valid(m) ==> Valid(m')
    ensures Symmetric(m) ==> Symmetric(m')
  {
    var bass := Clamp(value, -100.0, 100.0);
    var gainDB := SliderToGainDB(bass);
    m.(bassGain := bass, lowL := UpdateGain(m.design, m.lowL, gainDB), lowR := UpdateGain(m.design, m.lowR, gainDB))
  }

  function GetBass(m: MixerState): real
  {
    m.bassGain
  }

  /** SetTreble: the same for the high shelves. */
  function SetTreble(m: MixerState, value: real): (m': MixerState)
    ensures -100.0 <= GetTreble(m') <= 100.0
    ensures -100.0 <= value <= 100.0 ==> GetTreble(m') == value
    ensures value < -100.0 ==> GetTreble(m') == -100.0
    ensures value > 100.0 ==> GetTreble(m') == 100.0
    ensures m'.highL.coeffs == m.design(m.highL.shelf, m.highL.f0, m.highL.sampleRate, SliderToGainDB(GetTreble(m')))
    ensures m'.highL.x1 == m.highL.x1 && m'.highL.x2 == m.highL.x2 && m'.highL.y1 == m.highL.y1 && m'.highL.y2 == m.highL.y2
    ensures m'.highR.x1 == m.highR.x1 && m'.highR.x2 == m.highR.x2 && m'.highR.y1 == m.highR.y1 && m'.highR.y2 == m.highR.y2
    ensures SameAudio(m, m') && SameSettingsBut(m, m', false, false, false, false, true)
    ensures Valid(m) ==> Valid(m')
    ensures Symmetric(m) ==> Symmetric(m')
  {
    var treble := Clamp(value, -100.0, 100.0);
    var gainDB := SliderToGainDB(treble);
    m.(trebleGain := treble, highL := UpdateGain(m.design, m.highL, gainDB), highR := UpdateGain(m.design, m.highR, gainDB))
  }

  function GetTreble(m: MixerState): real
  {
    m.trebleGain
  }

  /** Each setter forgets the value set before it. */
  lemma SettersLastWins(m: MixerState, a: real, b: real)
    ensures SetMasterVolume(SetMasterVolume(m, a), b) == SetMasterVolume(m, b)
    ensures SetColor(SetColor(m, a), b) == SetColor(m, b)
    ensures SetBass(SetBass(m, a), b) == SetBass(m, b)
    ensures SetTreble(SetTreble(m, a), b) == SetTreble(m, b)
  {
  }

  /** Setting a value just read back changes nothing. */
  lemma SetReadBackIsIdentity(m: MixerState, a: real)
    ensures var m1 := SetMasterVolume(m, a); SetMasterVolume(m1, GetMasterVolume(m1)) == m1
    ensures var m1 := SetColor(m, a); SetColor(m1, GetColor(m1)) == m1
    ensures var m1 := SetBass(m, a); SetBass(m1, GetBass(m1)) == m1
    ensures var m1 := SetTreble(m, a); SetTreble(m1, GetTreble(m1)) == m1
  {
  }

  /** ReseedRNG: a fresh white stream for the generator; the colour filters'
      memories and every setting are kept. */
  function ReseedRNG(m: MixerState, source: WhiteSource): (m': MixerState)
    ensures m'.gen.source == source && m'.gen.drawn == 0
    ensures m'.gen.primary == m.gen.primary && m'.gen.secondary == m.gen.secondary
    ensures m'.masterVolume == m.masterVolume && SameSettingsBut(m, m', false, false, false, false, false)
    ensures Valid(m) ==> Valid(m')
    ensures Symmetric(m) ==> Symmetric(m')
  {
    m.(gen := Reseed(m.gen, source))
  }

  /** One frame of the volume ramp: 0.1 % of the way to the target. */
  function Smooth(v: real, target: real): real
  {
    v + (target - v) * SmoothingRate
  }

  /** The volume after `n` frames of ramping from `v` toward `target`. */
  function Smoothed(v: real, target: real, n: nat): real
    decreases n
  {
    if n == 0 then v else Smooth(Smoothed(v, target, n - 1), target)
  }

  /** The ramp never overshoots: it stays between its start and its target. */
  lemma {:induction false} SmoothedBetween(v: real, target: real, n: nat)
    ensures Between(v, Smoothed(v, target, n), target)
    decreases n
  {
    if n > 0 {
      SmoothedBetween(v, target, n - 1);
    }
  }

  function Pow(x: real, n: nat): real
    decreases n
  {
    if n == 0 then 1.0 else Pow(x, n - 1) * x
  }

  /** The ramp in closed form: the remaining distance shrinks by a factor
      0.999 every frame. */
  lemma {:induction false} SmoothedClosedForm(v: real, target: real, n: nat)
    ensures Smoothed(v, target, n) == target - (target - v) * Pow(0.999, n)
    decreases n
  {
    if n > 0 {
      SmoothedClosedForm(v, target, n - 1);
      var p := Pow(0.999, n - 1);
      var q := (target - v) * p;
      assert Smoothed(v, target, n) == target - q * 0.999;
      assert (target - v) * (p * 0.999) == q * 0.999;
    }
  }

  /** Ramping toward 0, as Mix does with the power off, multiplies the
      volume by 0.999 every frame. */
  lemma PowerOffDecay(v: real, n: nat)
    ensures Smoothed(v, 0.0, n) == v * Pow(0.999, n)
  {
    SmoothedClosedForm(v, 0.0, n);
  }

  /** Each frame moves the volume from where it was toward the target
      without passing it, so the ramp is monotone. */
  lemma SmoothStepBetween(v: real, target: real, n: nat)
    ensures Between(Smoothed(v, target, n), Smoothed(v, target, n + 1), target)
  {
    var x := Smoothed(v, target, n);
    assert Smoothed(v, target, n + 1) == x + (target - x) * SmoothingRate;
  }

  /** The two shelves of one channel in series. */
  function Chain(low: Biquad, high: Biquad, xs: seq<real>): (ys: seq<real>)
    ensures |ys| == |xs|
  {
    Run(high, Run(low, xs).out).out
  }

  /** One channel sample as it leaves the mixer: scaled by the volume and
      hard-clipped to [-1, 1]. */
  function Audible(x: real, volume: real): (y: real)
    ensures -1.0 <= y <= 1.0
    ensures -1.0 <= x * volume <= 1.0 ==> y == x * volume
  {
    Clamp(x * volume, -1.0, 1.0)
  }

  /** Mix renders `n` interleaved stereo frames. With the power off it
      returns silence, leaves the generator and filters alone and only ramps
      the volume toward zero; with the power on it draws the blended mono
      noise, filters a copy through each channel's shelves, and applies the
      ramping volume with a hard clip. */
  method Mix(m: MixerState, n: nat) returns (out: seq<real>, m': MixerState)
    ensures |out| == 2 * n
    ensures forall j :: 0 <= j < |out| ==> -1.0 <= out[j] <= 1.0
    ensures SameSettingsBut(m, m', false, false, false, true, true)
    ensures m'.bassGain == m.bassGain && m'.trebleGain == m.trebleGain
    ensures m'.design == m.design && m'.sampleRate == m.sampleRate
    ensures !m.power ==> forall j :: 0 <= j < |out| ==> out[j] == 0.0
    ensures !m.power ==> m'.masterVolume == Smoothed(m.masterVolume, 0.0, n) && m'.gen == m.gen
    ensures !m.power ==> m'.lowL == m.lowL && m'.lowR == m.lowR && m'.highL == m.highL && m'.highR == m.highR
    ensures m.power ==>
              var blend := GenerateBlended(m.gen, m.colorSlider, n, 1.0);
              var left := Chain(m.lowL, m.highL, blend.out);
              var right := Chain(m.lowR, m.highR, blend.out);
              && m'.gen == blend.state
              && m'.masterVolume == Smoothed(m.masterVolume, m.targetVolume, n)
              && m'.lowL == Run(m.lowL, blend.out).state && m'.lowR == Run(m.lowR, blend.out).state
              && m'.highL == Run(m.highL, Run(m.lowL, blend.out).out).state
              && m'.highR == Run(m.highR, Run(m.lowR, blend.out).out).state
              && forall k :: 0 <= k < n ==>
                   && out[2 * k] == Audible(left[k], Smoothed(m.masterVolume, m.targetVolume, k + 1))
                   && out[2 * k + 1] == Audible(right[k], Smoothed(m.masterVolume, m.targetVolume, k + 1))
    ensures m.power && Symmetric(m) ==> forall k :: 0 <= k < n ==> out[2 * k] == out[2 * k + 1]
    ensures Valid(m) ==> Valid(m')
    ensures Symmetric(m) ==> Symmetric(m')
  {
    if !m.power {
      var mv := Ramp(m.masterVolume, 0.0, n);
      out := seq(2 * n, _ => 0.0);
      m' := m.(masterVolume := mv);
      SmoothedBetween(m.masterVolume, 0.0, n);
      return;
    }

    var blend := GenerateBlended(m.gen, m.colorSlider, n, 1.0);
    var lowLeft, lowL := Process(m.lowL, blend.out);
    var left, highL := Process(m.highL, lowLeft);
    var lowRight, lowR := Process(m.lowR, blend.out);
    var right, highR := Process(m.highR, lowRight);
    var mv;
    out, mv := ApplyVolume(left, right, m.masterVolume, m.targetVolume);
    m' := m.(gen := blend.state, masterVolume := mv, lowL := lowL, lowR := lowR, highL := highL, highR := highR);
    SmoothedBetween(m.masterVolume, m.targetVolume, n);
  }

  /** The power-off loop of Mix: `n` frames of ramping, no samples. */
  method Ramp(v: real, target: real, n: nat) returns (mv: real)
    ensures mv == Smoothed(v, target, n)
    ensures Between(v, mv, target)
  {
    mv := v;
    var i := 0;
    while i < n
      invariant 0 <= i <= n
      invariant mv == Smoothed(v, target, i)
    {
      mv := mv + (target - mv) * SmoothingRate;
      i := i + 1;
    }
    SmoothedBetween(v, target, n);
  }

  /** The power-on volume loop of Mix: ramp one frame, then scale and clip
      the left and right sample of that frame, left first. */
  method ApplyVolume(left: seq<real>, right: seq<real>, v: real, target: real) returns (out: seq<real>, mv: real)
    requires |left| == |right|
    ensures |out| == 2 * |left|
    ensures mv == Smoothed(v, target, |left|)
    ensures forall k :: 0 <= k < |left| ==>
              out[2 * k] == Audible(left[k], Smoothed(v, target, k + 1)) &&
              out[2 * k + 1] == Audible(right[k], Smoothed(v, target, k + 1))
    ensures forall j :: 0 <= j < |out| ==> -1.0 <= out[j] <= 1.0
  {
    mv := v;
    out := [];
    var i := 0;
    while i < |left|
      invariant 0 <= i <= |left|
      invariant |out| == 2 * i
      invariant mv == Smoothed(v, target, i)
      invariant forall k :: 0 <= k < i ==>
                  out[2 * k] == Audible(left[k], Smoothed(v, target, k + 1)) &&
                  out[2 * k + 1] == Audible(right[k], Smoothed(v, target, k + 1))
      invariant forall j :: 0 <= j < |out| ==> -1.0 <= out[j] <= 1.0
    {
      mv := mv + (target - mv) * SmoothingRate;
      assert mv == Smoothed(v, target, i + 1);
      var frame := [Audible(left[i], mv), Audible(right[i], mv)];
      assert forall j :: 0 <= j < |out| ==> (out + frame)[j] == out[j];
      out := out + frame;
      i := i + 1;
    }
  }
}
