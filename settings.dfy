/**
 * The local CLI configuration (`Config`): an in-memory string map that is
 * written back whole to its YAML file on every update. Only the map is
 * modelled; the YAML file and the directory creation are not.
 */
module Settings {
  import opened Wrappers

  /** Written on first run, when the configuration directory does not exist yet. */
  const DefaultConfig: map<string, string> := map["API_URL" := "http://localhost:8001", "API_KEY" := "root"]

  class Config {
    var config: map<string, string>

    /** `Config.__init__`: the defaults on first run, otherwise what the file holds. */
    constructor (dirExists: bool, stored: map<string, string>)
      ensures config == if dirExists then stored else DefaultConfig
    {
      config := if dirExists then stored else DefaultConfig;
    }

    /** `config[key]`: `None` stands for the `KeyError` of a missing key. */
    function Get(key: string): (v: Option<string>)
      reads this
      ensures v.Some? <==> key in config
      ensures v.Some? ==> v.value == config[key]
    {
      if key in config then Some(config[key]) else None
    }

    /** `config[key] = value` (`cli set`): that key now holds `value`, every other key is untouched. */
    method Set(key: string, value: string)
      modifies this
      ensures config == old(config)[key := value]
      ensures Get(key) == Some(value)
      ensures forall k :: k != key ==> Get(k) == old(Get(k))
      ensures config.Keys == old(config.Keys) + {key}
    {
      config := config[key := value];
    }
  }
}
