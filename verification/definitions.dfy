/** The service definition: the durable configuration record the registry owns and
    the portal caches read-only. */
module Definitions {
  import opened Wrappers

  /** Rust's `u32`. */
  type U32 = n: int | 0 <= n < 0x1_0000_0000

  /** Environment variables handed to a service's process. */
  type Env = map<string, string>

  /** One registry entry. `port` is never written to or read from the registry file. */
  datatype ServiceDefinition = ServiceDefinition(
    id: string,
    name: string,
    ready: bool,
    binaryPath: string,
    args: seq<string>,
    env: Env,
    autoRestart: bool,
    restartLimit: Option<U32>,
    currentVersion: Option<string>,
    port: Option<nat>)

  /** A definition as it appears in the registry JSON: every field after `name` may be
      absent, which reads as `None` here. */
  datatype WireDefinition = WireDefinition(
    id: string,
    name: string,
    ready: Option<bool>,
    binaryPath: Option<string>,
    args: Option<seq<string>>,
    env: Option<Env>,
    autoRestart: Option<bool>,
    restartLimit: Option<U32>,
    currentVersion: Option<string>)

  /** The value `auto_restart` takes when the file leaves it out. */
  const DEFAULT_AUTO_RESTART: bool := true

  /** Deserialisation with the registry's field defaults. */
  function Decode(w: WireDefinition): (d: ServiceDefinition)
    ensures d.id == w.id && d.name == w.name
    ensures d.ready <==> w.ready == Some(true)
    ensures w.binaryPath.None? ==> d.binaryPath == ""
    ensures w.binaryPath.Some? ==> d.binaryPath == w.binaryPath.value
    ensures w.args.None? ==> d.args == []
    ensures w.args.Some? ==> d.args == w.args.value
    ensures w.env.None? ==> d.env == map[]
    ensures w.env.Some? ==> d.env == w.env.value
    ensures d.autoRestart <==> w.autoRestart != Some(false)
    ensures d.restartLimit == w.restartLimit && d.currentVersion == w.currentVersion
    ensures d.port.None?
  {
    ServiceDefinition(
      w.id,
      w.name,
      w.ready.GetOr(false),
      w.binaryPath.GetOr(""),
      w.args.GetOr([]),
      w.env.GetOr(map[]),
      w.autoRestart.GetOr(DEFAULT_AUTO_RESTART),
      w.restartLimit,
      w.currentVersion,
      None)
  }

  /** Serialisation: every field is written except `port`. */
  function Encode(d: ServiceDefinition): (w: WireDefinition)
    ensures Decode(w) == d.(port := None)
  {
    WireDefinition(
      d.id, d.name, Some(d.ready), Some(d.binaryPath), Some(d.args), Some(d.env),
      Some(d.autoRestart), d.restartLimit, d.currentVersion)
  }
}
