/** The decision logic of internal/mqtt/client.go: the preset table, the
    preset lookup, the name the current preset starts with, and the mapping
    from an incoming payload to the command the client queues for the
    control loop. Connecting, subscribing and publishing are network I/O and
    are not modelled. */
module Mqtt {
  import opened Common
  import opened Text

  /** A named sound: colour slider, bass slider and treble slider. */
  datatype Preset = Preset(name: string, color: real, bass: real, treble: real)

  const Presets: seq<Preset> := [
    Preset("Womb Sounds", 5.0, 80.0, -60.0),
    Preset("Deep Sleep", 12.0, 50.0, -40.0),
    Preset("Shushing", 30.0, -20.0, 30.0),
    Preset("Fan Noise", 45.0, 40.0, -10.0),
    Preset("Gentle Rain", 25.0, 10.0, -20.0),
    Preset("Light Sleep", 35.0, 0.0, -30.0),
    Preset("Calming Wash", 20.0, 30.0, -50.0),
    Preset("Bright Comfort", 55.0, -10.0, 20.0),
    Preset("Brown Noise", 0.0, 0.0, 0.0),
    Preset("Pink Noise", 25.0, 0.0, 0.0),
    Preset("White Noise", 50.0, 0.0, 0.0)
  ]

  /** The preset name reported once the user edits any slider by hand. */
  const Custom: string := "Custom"

  /** `CurrentPreset` before any command or restore. */
  const InitialPreset: string := Custom

  /** What a handler queues: an action name, a number, a preset name. Fields
      a handler does not set keep Go's zero values. */
  datatype Command = Command(action: string, value: real, preset: string)

  /** `strconv.ParseFloat(_, 64)`: the parsed value, or None on a syntax or
      range error. */
  type FloatParser = string -> Option<real>

  /** The index of the first entry of `table` at or after `from` named `name`. */
  function FindIndex(table: seq<Preset>, name: string, from: nat): (r: Option<nat>)
    requires from <= |table|
    ensures r.Some? ==> from <= r.value < |table| && table[r.value].name == name
    ensures r.Some? ==> forall j :: from <= j < r.value ==> table[j].name != name
    ensures r.None? <==> forall j :: from <= j < |table| ==> table[j].name != name
    decreases |table| - from
  {
    if from == |table| then None
    else if table[from].name == name then Some(from)
    else FindIndex(table, name, from + 1)
  }

  /** FindPreset: the first table entry with exactly this name, or None when
      there is none. */
  function FindPreset(name: string): (r: Option<Preset>)
    ensures r.Some? ==> r.value.name == name && r.value in Presets
    ensures r.Some? ==> exists i :: 0 <= i < |Presets| && Presets[i] == r.value &&
                                   forall j :: 0 <= j < i ==> Presets[j].name != name
    ensures r.None? <==> forall p :: p in Presets ==> p.name != name
  {
    match FindIndex(Presets, name, 0)
    case None => None
    case Some(i) => Some(Presets[i])
  }

  /** Every preset is a reachable slider position. */
  lemma PresetsInRange()
    ensures forall p :: p in Presets ==>
              0.0 <= p.color <= 100.0 && -100.0 <= p.bass <= 100.0 && -100.0 <= p.treble <= 100.0
  {
  }

  /** No two presets share a name. */
  lemma PresetNamesDistinct()
    ensures forall i, j :: 0 <= i < j < |Presets| ==> Presets[i].name != Presets[j].name
  {
  }

  /** Looking up any table entry by its name finds that very entry. */
  lemma FindPresetFindsEachEntry(k: nat)
    requires k < |Presets|
    ensures FindPreset(Presets[k].name) == Some(Presets[k])
  {
    var name := Presets[k].name;
    var r := FindIndex(Presets, name, 0);
    assert r.Some?;
    if r.value != k {
      assert r.value < k;
      PresetNamesDistinct();
      assert false;
    }
  }

  /** "Custom" is the one preset name that is not in the table. */
  lemma CustomIsNotInTable()
    ensures FindPreset(Custom) == None
  {
    assert forall k :: 0 <= k < |Presets| ==> |Presets[k].name| != |Custom|;
  }

  /** handlePower: "ON" after trimming switches on; anything else, including
      "on" or an empty payload, switches off. */
  function HandlePower(payload: string): (c: Command)
    ensures c.action == "set_power_on" || c.action == "set_power_off"
    ensures c.value == 0.0 && c.preset == ""
  {
    var action := if TrimSpace(payload) == "ON" then "set_power_on" else "set_power_off";
    Command(action, 0.0, "")
  }

  /** The payloads that switch on are exactly "ON" with spaces around it. */
  lemma PowerOnExactly(payload: string)
    ensures HandlePower(payload).action == "set_power_on" <==> Surrounds(payload, "ON")
  {
    if Surrounds(payload, "ON") {
      var pre, post :| AllSpace(pre) && AllSpace(post) && payload == pre + "ON" + post;
      TrimSpacePadded(pre, "ON", post);
    }
  }

  /** A trimmed payload that parses yields `action` with that number;
      one that does not yields nothing. */
  function ParsedCommand(parse: FloatParser, action: string, payload: string): (c: Option<Command>)
    ensures c.Some? <==> parse(TrimSpace(payload)).Some?
    ensures c.Some? ==> c.value.action == action && c.value.preset == ""
  {
    match parse(TrimSpace(payload))
    case None => None
    case Some(v) => Some(Command(action, v, ""))
  }

  /** handleVolume: the payload is a percentage, the command carries a
      fraction. */
  function HandleVolume(parse: FloatParser, payload: string): (c: Option<Command>)
    ensures c.Some? <==> parse(TrimSpace(payload)).Some?
    ensures c.Some? ==> c.value.action == "set_volume" && c.value.preset == ""
    ensures c.Some? ==> c.value.value * 100.0 == parse(TrimSpace(payload)).value
  {
    match parse(TrimSpace(payload))
    case None => None
    case Some(v) => Some(Command("set_volume", v / 100.0, ""))
  }

  /** handleColor: the slider value as sent. */
  function HandleColor(parse: FloatParser, payload: string): (c: Option<Command>)
    ensures c.Some? <==> parse(TrimSpace(payload)).Some?
    ensures c.Some? ==> c.value == Command("set_color", parse(TrimSpace(payload)).value, "")
  {
    ParsedCommand(parse, "set_color", payload)
  }

  /** handleBass: the slider value as sent. */
  function HandleBass(parse: FloatParser, payload: string): (c: Option<Command>)
    ensures c.Some? <==> parse(TrimSpace(payload)).Some?
    ensures c.Some? ==> c.value == Command("set_bass", parse(TrimSpace(payload)).value, "")
  {
    ParsedCommand(parse, "set_bass", payload)
  }

  /** handleTreble: the slider value as sent. */
  function HandleTreble(parse: FloatParser, payload: string): (c: Option<Command>)
    ensures c.Some? <==> parse(TrimSpace(payload)).Some?
    ensures c.Some? ==> c.value == Command("set_treble", parse(TrimSpace(payload)).value, "")
  {
    ParsedCommand(parse, "set_treble", payload)
  }

  /** handlePreset: the trimmed payload is the preset name, known or not. */
  function HandlePreset(payload: string): (c: Command)
    ensures c.action == "set_preset" && c.value == 0.0
    ensures Tight(c.preset) && Surrounds(payload, c.preset)
  {
    Command("set_preset", 0.0, TrimSpace(payload))
  }

  /** handleStopAll: the payload is ignored. */
  function HandleStopAll(payload: string): (c: Command)
    ensures c.action == "stop_all" && c.value == 0.0 && c.preset == ""
  {
    Command("stop_all", 0.0, "")
  }
}
