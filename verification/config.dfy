/** internal/config/config.go: the settings read from the environment at
    start-up, each with a default, and the rule that gives a bare broker
    host the "tcp://" scheme. The environment is a map from names to values;
    `strconv.Atoi` is a parameter. */
module Config {
  import opened Common
  import opened Text

  type Env = map<string, string>

  /** `strconv.Atoi`: the integer, or None on a syntax or range error. */
  type IntParser = string -> Option<int>

  const TcpScheme: string := "tcp://"
  const SslScheme: string := "ssl://"

  datatype Settings = Settings(broker: string, port: int, user: string, password: string, topic: string,
                               sampleRate: int, bufferSize: int, stateFile: string)

  /** `os.Getenv`: an unset variable reads as the empty string. */
  function Getenv(env: Env, key: string): (v: string)
    ensures key in env ==> v == env[key]
    ensures key !in env ==> v == ""
  {
    if key in env then env[key] else ""
  }

  /** getEnv: the variable's value when it is set to something non-empty,
      the default when it is unset or empty. */
  function GetEnv(env: Env, key: string, default: string): (r: string)
    ensures key in env && env[key] != "" ==> r == env[key]
    ensures key !in env || env[key] == "" ==> r == default
    ensures r == "" ==> default == ""
  {
    var value := Getenv(env, key);
    if value != "" then value else default
  }

  /** getEnvInt: the parsed value when the variable is set, non-empty and
      an integer; the default in every other case, a malformed value
      included. */
  function GetEnvInt(env: Env, atoi: IntParser, key: string, default: int): (r: int)
    ensures key in env && env[key] != "" && atoi(env[key]).Some? ==> r == atoi(env[key]).value
    ensures key !in env || env[key] == "" || atoi(env[key]).None? ==> r == default
  {
    var value := Getenv(env, key);
    if value != "" then
      match atoi(value)
      case Some(i) => i
      case None => default
    else
      default
  }

  predicate HasScheme(broker: string)
  {
    HasPrefix(broker, TcpScheme) || HasPrefix(broker, SslScheme)
  }

  /** The broker check of Load: a URL with either scheme is kept, anything
      else is taken as a bare host and gets "tcp://" in front. */
  function NormalizeBroker(broker: string): (r: string)
    ensures HasScheme(r)
    ensures HasScheme(broker) ==> r == broker
    ensures !HasScheme(broker) ==> HasPrefix(r, TcpScheme) && r[|TcpScheme|..] == broker
  {
    if HasScheme(broker) then broker
    else
      var r := TcpScheme + broker;
      assert r[..|TcpScheme|] == TcpScheme;
      assert r[|TcpScheme|..] == broker;
      r
  }

  /** Normalising twice is normalising once. */
  lemma NormalizeBrokerIdempotent(broker: string)
    ensures NormalizeBroker(NormalizeBroker(broker)) == NormalizeBroker(broker)
  {
  }

  /** A broker is left as it is exactly when it already has a scheme. */
  lemma NormalizeBrokerFixedPoints(broker: string)
    ensures NormalizeBroker(broker) == broker <==> HasScheme(broker)
  {
  }

  /** "localhost", the default broker, has no scheme. */
  lemma LocalhostIsBare()
    ensures !HasScheme("localhost")
  {
    assert "localhost"[..6][0] == 'l';
  }

  /** Load: every setting from its variable, falling back to its default. */
  function Load(env: Env, atoi: IntParser): (c: Settings)
    ensures HasScheme(c.broker)
    ensures c.topic != "" && c.stateFile != ""
    ensures c.user == Getenv(env, "MQTT_USER") && c.password == Getenv(env, "MQTT_PASSWORD")
  {
    Settings(
      NormalizeBroker(GetEnv(env, "MQTT_BROKER", "localhost")),
      GetEnvInt(env, atoi, "MQTT_PORT", 1883),
      GetEnv(env, "MQTT_USER", ""),
      GetEnv(env, "MQTT_PASSWORD", ""),
      GetEnv(env, "MQTT_TOPIC", "homeassistant/noise"),
      GetEnvInt(env, atoi, "SAMPLE_RATE", 44100),
      GetEnvInt(env, atoi, "BUFFER_SIZE", 2048),
      GetEnv(env, "STATE_FILE", "/var/lib/pink-noise/state.json"))
  }

  /** With nothing set, every setting is its default. */
  lemma LoadDefaults(atoi: IntParser)
    ensures Load(map[], atoi) == Settings("tcp://localhost", 1883, "", "", "homeassistant/noise",
                                          44100, 2048, "/var/lib/pink-noise/state.json")
  {
    var env: Env := map[];
    LocalhostIsBare();
    assert GetEnv(env, "MQTT_BROKER", "localhost") == "localhost";
    assert GetEnvInt(env, atoi, "MQTT_PORT", 1883) == 1883;
    assert GetEnvInt(env, atoi, "SAMPLE_RATE", 44100) == 44100;
    assert GetEnvInt(env, atoi, "BUFFER_SIZE", 2048) == 2048;
  }

  /** A malformed number falls back to the default exactly as an unset
      variable does. */
  lemma MalformedNumberIsDefault(env: Env, atoi: IntParser, key: string, default: int)
    requires key in env && atoi(env[key]).None?
    ensures GetEnvInt(env, atoi, key, default) == GetEnvInt(env - {key}, atoi, key, default) == default
  {
  }
}
