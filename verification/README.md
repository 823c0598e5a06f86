# pink-noise, modelled in Dafny

pink-noise is a Home Assistant sound machine written in Go. It works as follows:

- A noise generator produces five colours of noise (brown, pink, white, blue and violet) from a white random stream.
- A 0-100 colour slider crossfades between adjacent colours.
- A mixer runs the mono noise through a bass shelf and a treble shelf per stereo channel.
- The mixer applies a master volume that ramps toward its target one frame at a time, then hard-clips.
- An audio reader packs the mixed samples as little-endian float32 bytes for the sound device.
- MQTT handlers turn payloads into commands.
- A control loop applies each command to the mixer and to the current preset name, and saves a snapshot.
- The snapshot is restored at start-up.
- The configuration comes from environment variables with defaults.

This project models that core as pure Dafny values and functions. It proves the properties the code and its design promise.

| file | module | models |
|---|---|---|
| common.dfy | Common | `Option`, `Clamp` (Go's `math.Max(lo, math.Min(hi, x))`), `Block` (a block of output with the state it leaves) |
| colors.dfy | NoiseColors | the pink, brown, blue and violet recurrences, their closed forms and bounds |
| noise.dfy | Noise | the generator: two state slots per colour, slider selection, crossfade |
| filter.dfy | Filter | the biquad shelf: coefficient update, difference equation, block processing |
| mixer.dfy | Mixer | the mixer's setters, getters, reseed and `Mix` |
| text.dfy | Text | `strings.TrimSpace` and `strings.HasPrefix` |
| mqtt.dfy | Mqtt | the preset table, `FindPreset`, the payload handlers |
| control.dfy | Control | the command switch, `saveState` and `restoreState` |
| audio.dfy | Audio | `float64ToBytes` and the buffered `mixReader.Read` |
| config.dfy | Config | `getEnv`, `getEnvInt`, the broker scheme rule, `Load` |

Things the model takes as parameters, each a value of a function type:

- **White samples.** The random stream is a `WhiteSource`: sample `i` is the i-th `rng.Float64()*2 - 1`. The generator keeps a count of the samples it has drawn.
- **Shelf coefficients.** The RBJ cookbook formula (`math.Pow`, `math.Cos`, `math.Sin`) is a `Design` parameter. Every filter property holds for any design.
- **Float32 bits.** The float32 conversion and `math.Float32bits` form an `Encoder` (`real -> bv32`).
- **Number parsing.** `strconv.ParseFloat` and `strconv.Atoi` are `FloatParser` and `IntParser` parameters.
- **The mix function.** The blocks the reader's mix function returns are `MixBlocks`: block k is what the k-th call returns.
- **The environment.** It is a map from names to values.

Go's `float64` is modelled as the exact `real`.

## Model

| member | source | states |
|---|---|---|
| Common.Clamp | internal/mixer/mixer.go:60 | the clamp of `math.Max(lo, math.Min(hi, x))` lies in [lo, hi], is x when x is in range, and is the nearer end otherwise |
| NoiseColors.BlueRunIsFirstDifference | internal/noise/generator.go:165-173 | blue output i is white sample i minus the white sample before it; the first uses the remembered one; the memory left is the last white sample |
| NoiseColors.VioletRunIsSecondDifference | internal/noise/generator.go:175-185 | violet output i is the first difference at i minus the first difference before it; the memory left is the last white sample and the last first difference |
| NoiseColors.PinkRunBounded | internal/noise/generator.go:135-153 | with white in [-1, 1] and taps in [-1, 1], the seven taps stay in [-1, 1] and every pink sample (tap sum over 2.5) lies in [-2.8, 2.8] |
| NoiseColors.BrownRunBounded | internal/noise/generator.go:155-163 | the leaky integrator `(acc + 0.02 w) / 1.02` never leaves [-1, 1], so brown output stays in [-3.5, 3.5] |
| NoiseColors.BlueRunBounded | internal/noise/generator.go:165-173 | blue output lies in [-2, 2] and its memory stays in [-1, 1] |
| NoiseColors.VioletRunBounded | internal/noise/generator.go:175-185 | violet output lies in [-4, 4] and its memory stays in range |
| NoiseColors.TapSumBounded | internal/noise/generator.go:149 | the tap sum of seven bounded taps divided by 2.5 lies in [-2.8, 2.8] |
| NoiseColors.PinkCoeffInUnit | internal/noise/generator.go:137 | each of the seven pink coefficients lies strictly between 0 and 1, so each tap step is a convex combination |
| Noise.NewGenerator | internal/noise/generator.go:35-40 | a new generator has drawn nothing. Every accumulator of both slots is zero: the seven pink taps, the brown integrator, the blue memory and both violet memories |
| Noise.Reseed | internal/noise/generator.go:44-46 | reseeding replaces the random source and keeps every filter memory of both slots |
| Noise.SelectMatchesReference | internal/noise/generator.go:62-92 | the anchor scan picks, for every slider value, the same branch as a region-by-region table: pure colour within 0.025 of an anchor, otherwise a crossfade of the two bracketing anchors with t = (s - lo) / 25 |
| Noise.SelectedBlendBrackets | internal/noise/generator.go:70-87 | a crossfade happens only strictly inside (0, 100), mixes two adjacent anchors that bracket the slider, and has weight strictly inside (0.001, 0.999) |
| Noise.AnchorsArePure | internal/noise/generator.go:48-58 | each anchor position selects exactly its anchor colour |
| Noise.BlendedAtEnds | internal/noise/generator.go:63-68 | slider <= 0 renders brown and slider >= 100 renders violet, both from the primary slot |
| Noise.BlendedAtAnchors | internal/noise/generator.go:73-79 | at an anchor position the block equals that colour generated alone from the primary slot |
| Noise.BlendedCrossfade | internal/noise/generator.go:81-87 | inside a bracket the block is the crossfade (1 - t) a + t b of the low colour (primary slot) then the high colour (secondary slot). The state left is the one after both runs, and the block draws 2n white samples. The primary slot changes only for the low colour and the secondary slot only for the high colour |
| Noise.RunColor | internal/noise/generator.go:94-121 | running one colour leaves the memory of every other colour in the slot unchanged |
| Noise.GenerateColor | internal/noise/generator.go:94-121 | a block of n samples draws exactly n white samples and never touches the other slot |
| Noise.Generate | internal/noise/generator.go:123-125 | Generate uses the primary slot only; the secondary slot is unchanged |
| Noise.Crossfade | internal/noise/generator.go:83-86 | sample j of the crossfade is a_j (1 - t) + b_j t |
| Noise.CrossfadeBounded | internal/noise/generator.go:83-86 | a crossfade with t in [0, 1] of two blocks within a bound stays within it |
| Noise.RunColorBounded | internal/noise/generator.go:127-185 | with white in [-1, 1], every colour at volume v stays within 4 v and keeps its memory in range |
| Noise.BlendedBounded | internal/noise/generator.go:62-92 | with white in [-1, 1] (Go draws [-1, 1)), every blended block at volume v stays within 4 v and both slots stay in range |
| Noise.ColorBounded | internal/noise/generator.go:94-121 | the same bound for a single colour on either slot |
| Filter.NewShelf | internal/filter/biquad.go:24-32 | a new shelf has silent delay registers and the coefficients the design gives for its type, corner, rate and gain |
| Filter.UpdateGain | internal/filter/biquad.go:34-36 | a gain change recomputes the coefficients and keeps the four delay registers, the type, the corner and the rate |
| Filter.UpdateGainLastWins | internal/filter/biquad.go:34-36 | two gain updates in a row equal the last one alone |
| Filter.RunSplit | internal/filter/biquad.go:75-84 | processing a + c equals processing a and then c from the state a leaves, so block boundaries do not matter |
| Filter.RunIsDifferenceEquation | internal/filter/biquad.go:75-84 | output i is b0 x_i + b1 x_(i-1) + b2 x_(i-2) - a1 y_(i-1) - a2 y_(i-2), with the registers standing for inputs and outputs before the block; the registers left are the last two inputs and outputs |
| Filter.Process | internal/filter/biquad.go:75-84 | the in-place loop computes the same block and final state as the difference-equation recurrence |
| Mixer.SliderToGainDB | internal/mixer/mixer.go:81-84 | a slider in [-100, 100] maps to [-12, 12] dB, with the same sign |
| Mixer.SliderToGainDBLinear | internal/mixer/mixer.go:81-84 | the map is linear and monotone with ends at +-12 dB |
| Mixer.NewMixer | internal/mixer/mixer.go:30-43 | a new mixer is off, both volumes are 0.5, and the slider is 25, which selects pure pink. The tone is flat and the generator is new. Each shelf is a new 0 dB shelf at its corner with all four delay registers zero; the right channel equals the left |
| Mixer.SetPower | internal/mixer/mixer.go:45-49 | reads back the power set and changes no other setting |
| Mixer.SetMasterVolume | internal/mixer/mixer.go:57-67 | sets the target, not the audible volume, clamped to [0, 1]; nothing else changes |
| Mixer.SetColor | internal/mixer/mixer.go:69-79 | the slider is clamped to [0, 100]; nothing else changes |
| Mixer.SetBass | internal/mixer/mixer.go:86-98 | the slider is clamped to [-100, 100]; both low shelves are retuned to its dB gain and keep their registers |
| Mixer.SetTreble | internal/mixer/mixer.go:101-113 | the same for the treble slider and the high shelves |
| Mixer.SettersLastWins | internal/mixer/mixer.go:57-108 | each setter forgets the value set before it |
| Mixer.SetReadBackIsIdentity | internal/mixer/mixer.go:57-113 | setting a value just read back changes nothing |
| Mixer.ReseedRNG | internal/mixer/mixer.go:116-120 | a new white stream for the generator; the colour memories, the filters and every setting are kept |
| Mixer.SmoothedBetween | internal/mixer/mixer.go:131 | the ramped volume never overshoots: it stays between its start and its target |
| Mixer.SmoothedClosedForm | internal/mixer/mixer.go:154 | after n frames the distance to the target is the initial distance times 0.999^n |
| Mixer.PowerOffDecay | internal/mixer/mixer.go:128-135 | with the power off the volume decays geometrically, as v 0.999^n |
| Mixer.SmoothStepBetween | internal/mixer/mixer.go:154 | each frame moves the volume toward the target without passing it, so the ramp is monotone |
| Mixer.Audible | internal/mixer/mixer.go:155-156 | an output sample lies in [-1, 1] and is the unclipped product whenever that is in range |
| Mixer.Mix | internal/mixer/mixer.go:122-160 | power off gives 2n zeros, ramps the volume toward 0 and leaves the generator and filters alone. Power on gives interleaved frames: left at 2k, right at 2k+1, each the blended mono noise through that channel's low then high shelf, times the volume ramped k+1 frames, clipped. Every sample is in [-1, 1], symmetric channels give identical left and right samples, and the mixer invariant is kept |
| Mixer.Ramp | internal/mixer/mixer.go:128-135 | the power-off loop leaves the volume ramped n frames toward 0, between start and target |
| Mixer.ApplyVolume | internal/mixer/mixer.go:153-157 | the power-on loop ramps before each frame and writes left then right at 2k and 2k+1 |
| Text.TrimSpace | internal/mqtt/client.go:113 | the trimmed payload has no space at either end, and the payload is it with only spaces added around it |
| Text.TrimSpacePadded | internal/mqtt/client.go:113 | trimming spaces + core + spaces gives back the core when the core has no space at its ends |
| Mqtt.FindPreset | internal/mqtt/client.go:344-351 | finds the first entry with exactly that name, or reports none exactly when no entry has it |
| Mqtt.FindIndex | internal/mqtt/client.go:345-349 | the scan returns the first matching index at or after its start, or none exactly when there is no match |
| Mqtt.FindPresetFindsEachEntry | internal/mqtt/client.go:22-34 | looking up any table entry by its name gives that entry |
| Mqtt.PresetNamesDistinct | internal/mqtt/client.go:22-34 | no two presets share a name |
| Mqtt.PresetsInRange | internal/mqtt/client.go:22-34 | every preset's sliders lie in their setters' ranges |
| Mqtt.CustomIsNotInTable | internal/mqtt/client.go:321 | "Custom", the initial preset name, is not a table entry |
| Mqtt.HandlePower | internal/mqtt/client.go:112-119 | the command is set_power_on or set_power_off and carries no value or preset |
| Mqtt.PowerOnExactly | internal/mqtt/client.go:112-119 | the power turns on exactly when the payload is "ON" surrounded by spaces; "on" and empty payloads turn it off |
| Mqtt.HandleVolume | internal/mqtt/client.go:121-127 | a command exists exactly when the trimmed payload parses, and its value times 100 is the parsed percentage |
| Mqtt.HandleColor | internal/mqtt/client.go:134-140 | a set_color command with the parsed value exactly when the trimmed payload parses |
| Mqtt.HandleBass | internal/mqtt/client.go:142-148 | the same for set_bass |
| Mqtt.HandleTreble | internal/mqtt/client.go:150-156 | the same for set_treble |
| Mqtt.HandlePreset | internal/mqtt/client.go:129-132 | the preset name is the payload with its surrounding spaces removed, known or not |
| Mqtt.HandleStopAll | internal/mqtt/client.go:158-160 | the payload is ignored |
| Control.EditsMarkCustom | cmd/pink-noise/main.go:110-118 | a colour, bass or treble edit applies its setter and makes the preset name "Custom" |
| Control.SetPresetDispatches | cmd/pink-noise/main.go:119-125 | set_preset is handled by the preset lookup whatever value it carries |
| Control.ApplyPresetFound | cmd/pink-noise/main.go:119-125 | a found preset puts its three slider values into the mixer and becomes the preset name; power and volume are untouched |
| Control.KnownPresetApplies | cmd/pink-noise/main.go:119-125 | sending the name of any table entry applies that entry |
| Control.UnknownPresetIgnored | cmd/pink-noise/main.go:119-125 | an unknown preset name changes nothing |
| Control.StopAllIsPowerOff | cmd/pink-noise/main.go:106-107 | stop_all acts exactly as set_power_off |
| Control.PowerAndVolumeKeepPreset | cmd/pink-noise/main.go:104-109 | power, volume and stop commands keep the preset name |
| Control.UnknownActionIgnored | cmd/pink-noise/main.go:103-128 | an action the switch does not name changes nothing |
| Control.ApplyPreservesMixer | cmd/pink-noise/main.go:103-128 | no command breaks the mixer invariant or the channel symmetry, or touches the generator or the ramping volume |
| Control.ApplyKeepsPresetKnown | cmd/pink-noise/main.go:103-128 | every command keeps the preset name "Custom" or a table entry when it was one |
| Control.ApplyAllPreserves | cmd/pink-noise/main.go:97-134 | from a controller that has them, both invariants hold after any queue of commands |
| Control.Initial | internal/mqtt/client.go:321 | the preset name starts as "Custom" |
| Control.Snapshot | cmd/pink-noise/main.go:137-145 | the snapshot holds the target volume, the three sliders, the power and the preset name, as the getters report them |
| Control.Restore | cmd/pink-noise/main.go:171-179 | restore sets the power from the file. It sets the volume, colour, bass and treble to the file's values clamped to their ranges. It takes the saved preset name unless that is empty, keeps the mixer invariant and touches no audio state |
| Control.RestorePresetKnown | cmd/pink-noise/main.go:177-179 | after a restore the preset name is "Custom" or a table entry exactly when the saved name is empty and the old name was one, or the saved name is one itself |
| Control.RestoreSnapshotRoundTrip | cmd/pink-noise/main.go:137-179 | restoring the snapshot of a valid controller with a preset name reproduces that snapshot |
| Control.RestoreClamps | cmd/pink-noise/main.go:171-175 | whatever the file holds, the restored settings are in range |
| Audio.LittleEndianRoundTrip | internal/audio/player.go:101-105 | decoding the four bytes gives back the 32-bit word |
| Audio.FromLittleEndianRoundTrip | internal/audio/player.go:101-105 | every four bytes are the encoding of exactly one word |
| Audio.EncodeSample | internal/audio/player.go:100-105 | a sample is four bytes that decode to the encoder's bits of the clamped sample |
| Audio.EncodeSampleClips | internal/audio/player.go:100 | samples beyond +-1 are encoded as +-1 and in-range samples are encoded unchanged |
| Audio.EncodeAllAt | internal/audio/player.go:96-109 | bytes 4i..4i+4 of the packed block are the encoding of sample i |
| Audio.Float64ToBytes | internal/audio/player.go:96-109 | the loop yields 4 bytes per sample, and each word decodes to the clamped sample's bits |
| Audio.NewReader | internal/audio/player.go:64-70 | a new reader has delivered nothing |
| Audio.Read | internal/audio/player.go:72-94 | unless stopped, exactly n bytes are returned. The bytes delivered so far always form a prefix of the concatenated mix blocks, extended by exactly the returned data. When stopped, no mix block is requested and only what is buffered is returned |
| Audio.Refill | internal/audio/player.go:76-86 | a refill requests the next mix block, rewinds the position and delivers nothing |
| Audio.Copy | internal/audio/player.go:88-90 | the copy takes the lesser of what is wanted and what is buffered, advances the position by that and extends the delivered stream by it |
| Config.GetEnv | internal/config/config.go:42-47 | the value when the variable is set and non-empty, the default when it is unset or empty |
| Config.GetEnvInt | internal/config/config.go:49-56 | the parsed value when set, non-empty and well-formed; the default otherwise |
| Config.MalformedNumberIsDefault | internal/config/config.go:49-56 | a malformed number reads as the default, exactly as an unset variable |
| Config.NormalizeBroker | internal/config/config.go:22-25 | the broker always has the tcp:// or ssl:// scheme; one that had it is kept, a bare host gets tcp:// in front |
| Config.NormalizeBrokerIdempotent | internal/config/config.go:22-25 | normalising twice is normalising once |
| Config.NormalizeBrokerFixedPoints | internal/config/config.go:22-25 | the broker is left unchanged exactly when it already has a scheme |
| Config.Load | internal/config/config.go:21-40 | the loaded broker has a scheme, the topic and state file are never empty, and user and password are the variables as set |
| Config.LoadDefaults | internal/config/config.go:21-36 | with nothing set: tcp://localhost, port 1883, empty user and password, topic homeassistant/noise, 44100 Hz, buffer 2048, state file /var/lib/pink-noise/state.json |

## Left out

- The MQTT connection is not modelled: connecting, subscribing, Home Assistant discovery, publishing state and availability, and JSON encoding are network I/O. The subscription routing in onConnect is not modelled either. The handlers are modelled from the payload on.
- `sendCommand` drops a command when the channel is full. This is not modelled: the control loop takes commands as a sequence in arrival order.
- Audio output through oto, the player's start and stop, and logging are not modelled.
- Reading `/dev/random`, the reseed loop, signal handling and the state file's read and write are I/O. Restore takes the already decoded snapshot; a missing or unparsable file is the case where restore is not called.
- The mutexes and goroutines are not modelled. Each operation is one atomic step on a value.
- `computeCoefficients` (`math.Pow`, `math.Cos`, `math.Sin`, `math.Sqrt`) is a `Design` parameter, so the RBJ cookbook values themselves are not stated.
- Floating point is not modelled: `float64` is the exact `real`, so rounding, NaN and infinities are absent. The float32 conversion and `math.Float32bits` are the `Encoder` parameter.
- `math/rand` is the `WhiteSource` stream. The model allows any real values; the bound lemmas assume [-1, 1], which holds for Go's [-1, 1).
- `NewGenerator`'s random seed, and the seed passed to `Reseed`, are replaced by the stream they produce.
- `strconv.ParseFloat` and `strconv.Atoi` are parameters. Go's `int` width, and therefore Atoi's range errors, live inside the `IntParser`.
- MQTT payloads are bytes in Go and strings of code points here. Invalid UTF-8 is not modelled.
- Audio.Read: requires every mix block to be non-empty. An empty block would make the Go loop spin forever.
- Audio.Read: the stop channel is read as one boolean for the whole call. A stop that arrives mid-call is not modelled.
- Audio.Read: when stopped, the returned bytes are stated as the continuation of the delivered stream and their length, rather than as an explicit slice of the buffer.
- `Reader.calls` does not exist in Go. It counts the mix blocks requested so far, so the delivered stream can be described.
- Control.ApplyAllPreserves: the preset-name invariant is not promised from start-up. Restoring copies any non-empty saved name, known or not (Control.RestorePresetKnown). A stale name stays the current preset until the next colour, bass, treble or known-preset command.
- Floating-point NaN is not modelled. In Go, `strconv.ParseFloat` accepts "NaN", and `math.Max` and `math.Min` pass NaN through every clamp. A "NaN" bass or treble payload therefore leaves NaN in the shelf registers for good. The proved bound of [-1, 1] on every output sample does not carry over to the Go program after such a payload.
