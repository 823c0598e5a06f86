/** The control loop of cmd/pink-noise/main.go: the action switch that
    applies a queued command to the mixer and to the current preset name, the
    state snapshot written after every command, and the rule that restores a
    saved snapshot at start-up. Reading and writing the state file, JSON and
    the publishing that follows each command are I/O and are not modelled:
    the snapshot is a value and restoring takes the decoded value. */
module Control {
  import opened Common
  import opened Mixer
  import opened Mqtt

  /** Everything a command can change: the mixer and the preset name
      (`mqtt.CurrentPreset`). */
  datatype Controller = Controller(mixer: MixerState, preset: string)

  /** The settings saved to the state file. */
  datatype PersistedState = PersistedState(masterVolume: real, color: real, bass: real, treble: real,
                                           preset: string, power: bool)

  /** The controller at start-up, before any restore. */
  function Initial(m: MixerState): (st: Controller)
    ensures st.preset == "Custom"
  {
    Controller(m, InitialPreset)
  }

  /** The cases of the action switch; `Other` is every string it does not
      name. */
  datatype Action = PowerOn | PowerOff | Volume | Color | Bass | Treble | PresetAction | StopAll | Other

  /** The case of the switch an action string selects. */
  function ActionOf(action: string): Action
  {
    match action
    case "set_power_on" => PowerOn
    case "set_power_off" => PowerOff
    case "set_volume" => Volume
    case "set_color" => Color
    case "set_bass" => Bass
    case "set_treble" => Treble
    case "set_preset" => PresetAction
    case "stop_all" => StopAll
    case _ => Other
  }

  /** The action switch of processCommands. */
  function Apply(st: Controller, cmd: Command): Controller
  {
    var m := st.mixer;
    match ActionOf(cmd.action)
    case PowerOn => st.(mixer := SetPower(m, true))
    case PowerOff => st.(mixer := SetPower(m, false))
    case Volume => st.(mixer := SetMasterVolume(m, cmd.value))
    case Color => Controller(SetColor(m, cmd.value), Custom)
    case Bass => Controller(SetBass(m, cmd.value), Custom)
    case Treble => Controller(SetTreble(m, cmd.value), Custom)
    case PresetAction => ApplyPreset(st, cmd.preset)
    case StopAll => st.(mixer := SetPower(m, false))
    case Other => st
  }

  /** The set_preset branch: a known name sets the three sliders from the
      table, an unknown one does nothing. */
  function ApplyPreset(st: Controller, name: string): Controller
  {
    match FindPreset(name)
    case Some(p) => Controller(SetTreble(SetBass(SetColor(st.mixer, p.color), p.bass), p.treble), p.name)
    case None => st
  }

  /** A hand edit of colour, bass or treble applies the value and turns the
      preset name into "Custom". */
  lemma EditsMarkCustom(st: Controller, v: real, p: string)
    ensures var st' := Apply(st, Command("set_color", v, p));
            st'.preset == "Custom" && st'.mixer == SetColor(st.mixer, v)
    ensures var st' := Apply(st, Command("set_bass", v, p));
            st'.preset == "Custom" && st'.mixer == SetBass(st.mixer, v)
    ensures var st' := Apply(st, Command("set_treble", v, p));
            st'.preset == "Custom" && st'.mixer == SetTreble(st.mixer, v)
  {
  }

  /** A set_preset command is handled by ApplyPreset whatever its number. */
  lemma SetPresetDispatches(st: Controller, v: real, name: string)
    ensures Apply(st, Command("set_preset", v, name)) == ApplyPreset(st, name)
  {
    assert ActionOf("set_preset") == PresetAction;
  }

  /** A name the table knows puts that preset's three slider values into
      the mixer, exactly as listed, and becomes the current preset; power and
      volume are untouched. */
  lemma ApplyPresetFound(st: Controller, name: string, p: Preset)
    requires FindPreset(name) == Some(p)
    ensures var st' := ApplyPreset(st, name);
            && st'.preset == p.name == name
            && GetColor(st'.mixer) == p.color
            && GetBass(st'.mixer) == p.bass
            && GetTreble(st'.mixer) == p.treble
            && GetPower(st'.mixer) == GetPower(st.mixer)
            && GetMasterVolume(st'.mixer) == GetMasterVolume(st.mixer)
  {
    PresetInRange(p);
  }

  /** Sending the name of any table entry selects that entry. */
  lemma KnownPresetApplies(st: Controller, v: real, k: nat)
    requires k < |Presets|
    ensures var p := Presets[k];
            var st' := Apply(st, Command("set_preset", v, p.name));
            && st'.preset == p.name
            && GetColor(st'.mixer) == p.color
            && GetBass(st'.mixer) == p.bass
            && GetTreble(st'.mixer) == p.treble
            && GetPower(st'.mixer) == GetPower(st.mixer)
            && GetMasterVolume(st'.mixer) == GetMasterVolume(st.mixer)
  {
    var p := Presets[k];
    FindPresetFindsEachEntry(k);
    SetPresetDispatches(st, v, p.name);
    ApplyPresetFound(st, p.name, p);
  }

  /** One entry of the table is a reachable slider position. */
  lemma PresetInRange(p: Preset)
    requires p in Presets
    ensures 0.0 <= p.color <= 100.0 && -100.0 <= p.bass <= 100.0 && -100.0 <= p.treble <= 100.0
  {
    PresetsInRange();
  }

  /** An unknown preset name changes nothing at all. */
  lemma UnknownPresetIgnored(st: Controller, v: real, name: string)
    requires forall p :: p in Presets ==> p.name != name
    ensures Apply(st, Command("set_preset", v, name)) == st
  {
    assert FindPreset(name) == None;
    SetPresetDispatches(st, v, name);
  }

  /** stop_all is set_power_off under another name. */
  lemma StopAllIsPowerOff(st: Controller, v: real, p: string, v': real, p': string)
    ensures Apply(st, Command("stop_all", v, p)) == Apply(st, Command("set_power_off", v', p'))
    ensures !GetPower(Apply(st, Command("stop_all", v, p)).mixer)
  {
    assert ActionOf("stop_all") == StopAll;
    assert ActionOf("set_power_off") == PowerOff;
  }

  /** Power and volume commands keep the preset name. */
  lemma PowerAndVolumeKeepPreset(st: Controller, cmd: Command)
    requires cmd.action in {"set_power_on", "set_power_off", "set_volume", "stop_all"}
    ensures Apply(st, cmd).preset == st.preset
  {
  }

  /** Any action the switch does not name changes nothing. */
  lemma UnknownActionIgnored(st: Controller, cmd: Command)
    requires cmd.action !in {"set_power_on", "set_power_off", "set_volume", "set_color", "set_bass",
                             "set_treble", "set_preset", "stop_all"}
    ensures Apply(st, cmd) == st
  {
  }

  /** The preset name is "Custom" or the name of a table entry. */
  predicate PresetKnown(st: Controller)
  {
    st.preset == Custom || FindPreset(st.preset).Some?
  }

  /** No command breaks the mixer's invariant, makes the channels differ,
      or touches the generator or the ramping volume. */
  lemma ApplyPreservesMixer(st: Controller, cmd: Command)
    ensures Valid(st.mixer) ==> Valid(Apply(st, cmd).mixer)
    ensures Symmetric(st.mixer) ==> Symmetric(Apply(st, cmd).mixer)
    ensures SameAudio(st.mixer, Apply(st, cmd).mixer)
  {
  }

  /** No command makes the preset name something other than "Custom" or a
      table entry. */
  lemma ApplyKeepsPresetKnown(st: Controller, cmd: Command)
    requires PresetKnown(st)
    ensures PresetKnown(Apply(st, cmd))
  {
    var st' := Apply(st, cmd);
    if ActionOf(cmd.action) == PresetAction {
      var r := FindPreset(cmd.preset);
      if r.Some? {
        assert st'.preset == r.value.name;
        assert r.value in Presets;
      } else {
        assert st' == st;
      }
    } else if ActionOf(cmd.action) in {Color, Bass, Treble} {
      assert st'.preset == Custom;
    } else {
      assert st'.preset == st.preset;
    }
  }

  /** The control loop over a queue of commands, in arrival order. */
  function ApplyAll(st: Controller, cmds: seq<Command>): Controller
    decreases |cmds|
  {
    if |cmds| == 0 then st else Apply(ApplyAll(st, cmds[..|cmds| - 1]), cmds[|cmds| - 1])
  }

  /** The invariants of ApplyPreservesMixer and ApplyKeepsPresetKnown hold after any queue of commands. */
  lemma {:induction false} ApplyAllPreserves(st: Controller, cmds: seq<Command>)
    requires Valid(st.mixer) && Symmetric(st.mixer) && PresetKnown(st)
    ensures var st' := ApplyAll(st, cmds);
            Valid(st'.mixer) && Symmetric(st'.mixer) && PresetKnown(st') && SameAudio(st.mixer, st'.mixer)
    decreases |cmds|
  {
    if |cmds| > 0 {
      var prefix := cmds[..|cmds| - 1];
      ApplyAllPreserves(st, prefix);
      ApplyPreservesMixer(ApplyAll(st, prefix), cmds[|cmds| - 1]);
      ApplyKeepsPresetKnown(ApplyAll(st, prefix), cmds[|cmds| - 1]);
    }
  }

  /** saveState: the user-facing settings and the preset name. The volume
      saved is the target, not the ramping one. */
  function Snapshot(st: Controller): (s: PersistedState)
    ensures s.masterVolume == GetMasterVolume(st.mixer) && s.power == GetPower(st.mixer)
    ensures s.color == GetColor(st.mixer) && s.bass == GetBass(st.mixer) && s.treble == GetTreble(st.mixer)
    ensures s.preset == st.preset
  {
    PersistedState(GetMasterVolume(st.mixer), GetColor(st.mixer), GetBass(st.mixer), GetTreble(st.mixer),
                   st.preset, GetPower(st.mixer))
  }

  /** restoreState once the file is read and decoded: every setting goes
      through its clamping setter, and the preset name is taken only when the
      saved one is not empty. */
  function Restore(st: Controller, s: PersistedState): (st': Controller)
    ensures s.preset != "" ==> st'.preset == s.preset
    ensures s.preset == "" ==> st'.preset == st.preset
    ensures GetPower(st'.mixer) == s.power
    ensures GetMasterVolume(st'.mixer) == Clamp(s.masterVolume, 0.0, 1.0)
    ensures GetColor(st'.mixer) == Clamp(s.color, 0.0, 100.0)
    ensures GetBass(st'.mixer) == Clamp(s.bass, -100.0, 100.0)
    ensures GetTreble(st'.mixer) == Clamp(s.treble, -100.0, 100.0)
    ensures Valid(st.mixer) ==> Valid(st'.mixer)
    ensures Symmetric(st.mixer) ==> Symmetric(st'.mixer)
    ensures SameAudio(st.mixer, st'.mixer)
  {
    var m := SetMasterVolume(st.mixer, s.masterVolume);
    var m := SetColor(m, s.color);
    var m := SetBass(m, s.bass);
    var m := SetTreble(m, s.treble);
    var m := SetPower(m, s.power);
    Controller(m, if s.preset != "" then s.preset else st.preset)
  }

  /** Restoring the snapshot of a valid controller into any controller gives
      back the same snapshot: nothing saved is lost or altered. */
  lemma RestoreSnapshotRoundTrip(st: Controller, start: Controller)
    requires Valid(st.mixer) && st.preset != ""
    ensures Snapshot(Restore(start, Snapshot(st))) == Snapshot(st)
  {
  }

  /** Restoring keeps the preset name known exactly when the saved name is
      empty and the name was known, or the saved name is itself "Custom" or a
      table entry: a stale name from the file is taken as it is. */
  lemma RestorePresetKnown(st: Controller, s: PersistedState)
    ensures PresetKnown(Restore(st, s)) <==>
              if s.preset == "" then PresetKnown(st) else s.preset == Custom || FindPreset(s.preset).Some?
  {
  }

  /** Restoring clamps what the file says: the restored settings are always
      in range, whatever the file holds. */
  lemma RestoreClamps(st: Controller, s: PersistedState)
    ensures var m := Restore(st, s).mixer;
            && 0.0 <= GetMasterVolume(m) <= 1.0 && 0.0 <= GetColor(m) <= 100.0
            && -100.0 <= GetBass(m) <= 100.0 && -100.0 <= GetTreble(m) <= 100.0
  {
  }
}
