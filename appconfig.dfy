/** The value-or-default rule of Application.GetStringConfig, once the lazy
    load has been attempted. A loaded configuration is its key/value view;
    `None` stands for an `AppConf` that is still nil. */
module AppConfig {
  import opened Helpers

  /** What Configer.GetString answers: the string stored under a key, with a
      missing key read as "" (the error it comes with is ignored). */
  type Config = map<string, string>

  function ConfigValue(conf: Option<Config>, key: string, default: string): (r: string)
    ensures r != default ==> conf.Some? && key in conf.value && r == conf.value[key]
    ensures conf.Some? && key in conf.value && conf.value[key] != "" ==> r == conf.value[key]
    ensures conf.None? || key !in conf.value || conf.value[key] == "" ==> r == default
    ensures r == "" ==> default == ""
  {
    if conf.Some? && key in conf.value && conf.value[key] != "" then conf.value[key] else default
  }
}
