/**
 The application configuration as the documentation views read it: boolean
 flags and string settings, each looked up with a default like Python's
 `dict.get(key, default)`.
 */
module AppConfig {

  datatype Config = Config(flags: map<string, bool>, settings: map<string, string>)

  /** `config.get(key, default)` for a boolean flag. */
  function Flag(config: Config, key: string, default: bool): bool {
    if key in config.flags then config.flags[key] else default
  }

  /** `config.get(key, default)` for a string setting. */
  function Setting(config: Config, key: string, default: string): string {
    if key in config.settings then config.settings[key] else default
  }

  /** A configuration that sets nothing, so every lookup yields its default. */
  const EmptyConfig := Config(map[], map[])
}
