/** The untyped configuration maps handed to a reporter, and the time units
    that the duration and rate options resolve to. */
module Config {
  import opened Wrappers

  /** `java.util.concurrent.TimeUnit`. */
  datatype TimeUnit =
    | Nanoseconds
    | Microseconds
    | Milliseconds
    | Seconds
    | Minutes
    | Hours
    | Days

  /** A value stored in a `Map<String, Object>` configuration. `NullValue` is a
      key explicitly mapped to `null`. */
  datatype ConfigValue =
    | NullValue
    | StrValue(s: string)
    | IntValue(i: int)
    | BoolValue(b: bool)
    | ListValue(items: seq<ConfigValue>)
    | MapValue(entries: map<string, ConfigValue>)

  type ConfigMap = map<string, ConfigValue>

  /** `Map.get`: `null` both for a missing key and for a key mapped to `null`. */
  function Get(conf: ConfigMap, key: string): (r: Option<ConfigValue>)
    ensures r.None? <==> (key !in conf || conf[key] == NullValue)
    ensures r.Some? ==> key in conf && r.value == conf[key] && r.value != NullValue
  {
    if key in conf && conf[key] != NullValue then Some(conf[key]) else None
  }
}
