/** The sync configuration and its per-environment override merge
    (`getConfig`). The `VITE_CS_DEBUG` environment variable is a parameter. */
module SyncConfig {
  import opened Wrappers

  datatype Options = Options(
    debug: bool,
    maxRetries: int,
    retryDelay: int,
    useCacheFallback: bool,
    cacheRefreshInterval: int)

  /** A partial `options` object: an absent field is not overridden. */
  datatype OptionsOverride = OptionsOverride(
    debug: Option<bool>,
    maxRetries: Option<int>,
    retryDelay: Option<int>,
    useCacheFallback: Option<bool>,
    cacheRefreshInterval: Option<int>)

  /** An environment's settings; an absent field is not overridden. */
  datatype Override = Override(autoSyncInterval: Option<int>, debug: Option<bool>, options: Option<OptionsOverride>)

  /** The empty override `{}`, used for an environment with no settings. */
  const NoOverride := Override(None, None, None)

  /** A configuration object. `debug` is present only after an environment supplied it. */
  datatype Config = Config(
    autoSyncInterval: int,
    contentTypes: seq<string>,
    options: Options,
    environments: map<string, Override>,
    debug: Option<bool>)

  /** `syncConfig`, given the value of `VITE_CS_DEBUG`. */
  function BaseConfig(viteCsDebug: Option<string>): Config {
    Config(
      5,
      ["home_page", "blog_post", "about_page", "services_page", "contact_page"],
      Options(viteCsDebug == Some("true"), 3, 2000, true, 30),
      map["development" := Override(Some(2), Some(true), None),
          "production" := Override(Some(10), Some(false), None)],
      None)
  }

  function Pick<T>(over: Option<T>, base: T): T {
    if over.Some? then over.value else base
  }

  /** `{...base, ...over}` on options. */
  function MergeOptions(base: Options, over: Option<OptionsOverride>): (r: Options)
    ensures over.None? ==> r == base
  {
    if over.None? then base
    else
      var o := over.value;
      Options(Pick(o.debug, base.debug), Pick(o.maxRetries, base.maxRetries), Pick(o.retryDelay, base.retryDelay),
              Pick(o.useCacheFallback, base.useCacheFallback), Pick(o.cacheRefreshInterval, base.cacheRefreshInterval))
  }

  /** `{...base, ...over, options: {...base.options, ...over.options}}`. */
  function Merge(base: Config, over: Override): (r: Config)
    ensures r.contentTypes == base.contentTypes && r.environments == base.environments
    ensures over.autoSyncInterval.Some? ==> r.autoSyncInterval == over.autoSyncInterval.value
    ensures over.autoSyncInterval.None? ==> r.autoSyncInterval == base.autoSyncInterval
    ensures r.debug == if over.debug.Some? then over.debug else base.debug
    ensures over.options.None? ==> r.options == base.options
  {
    base.(autoSyncInterval := Pick(over.autoSyncInterval, base.autoSyncInterval),
          debug := if over.debug.Some? then over.debug else base.debug,
          options := MergeOptions(base.options, over.options))
  }

  /** `getConfig(environment = 'development')`: a fresh configuration, the base
      overlaid with the named environment's settings (none for an unknown name). */
  function GetConfig(environment: Option<string>, viteCsDebug: Option<string>): (r: Config)
    ensures r.contentTypes == BaseConfig(viteCsDebug).contentTypes
    ensures r.environments == BaseConfig(viteCsDebug).environments
    ensures r.options == BaseConfig(viteCsDebug).options
  {
    var base := BaseConfig(viteCsDebug);
    var name := environment.GetOr("development");
    Merge(base, if name in base.environments then base.environments[name] else NoOverride)
  }

  /** With no argument, `getConfig` is the development configuration:
      a two-minute interval and debug on. */
  lemma DefaultIsDevelopment(viteCsDebug: Option<string>)
    ensures GetConfig(None, viteCsDebug) == GetConfig(Some("development"), viteCsDebug)
    ensures GetConfig(None, viteCsDebug).autoSyncInterval == 2
    ensures GetConfig(None, viteCsDebug).debug == Some(true)
  {
  }

  /** Production: a ten-minute interval and debug off. */
  lemma ProductionSettings(viteCsDebug: Option<string>)
    ensures GetConfig(Some("production"), viteCsDebug).autoSyncInterval == 10
    ensures GetConfig(Some("production"), viteCsDebug).debug == Some(false)
  {
  }

  /** Any other environment gets the base configuration unchanged. */
  lemma UnknownEnvironmentIsBase(environment: string, viteCsDebug: Option<string>)
    requires environment != "development" && environment != "production"
    ensures GetConfig(Some(environment), viteCsDebug) == BaseConfig(viteCsDebug)
    ensures GetConfig(Some(environment), viteCsDebug).autoSyncInterval == 5
  {
  }
}
