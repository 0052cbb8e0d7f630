/** The UnleashClient class: its construction (URL normalisation, static
    context, strategy table), the initialisation flag, and the is_enabled
    gate that maps every failure to the caller's default. */
module UnleashClient {
  import opened Wrappers
  import opened Strategies

  /** A feature toggle as the client sees it: Feature.is_enabled(context,
      default_value), which returns a boolean or raises. Its body is not
      part of this model. */
  datatype Feature = Feature(isEnabled: (Context, bool) -> Result<bool>)

  /** The built-in strategy table of the constructor. */
  const DefaultStrategyMapping: map<string, StrategyClass> := map[
    "applicationHostname" := ApplicationHostname,
    "default" := Default,
    "gradualRolloutRandom" := GradualRolloutRandom,
    "gradualRolloutSessionId" := GradualRolloutSessionId,
    "gradualRolloutUserId" := GradualRolloutUserId,
    "remoteAddress" := RemoteAddress,
    "userWithId" := UserWithId
  ]

  /** `{**custom_strategies, **default_strategy_mapping}`: every name of
      either table is present; a built-in name always keeps its built-in
      class, even when a custom strategy was registered under it. */
  function MergeStrategies(custom: map<string, StrategyClass>): (r: map<string, StrategyClass>)
    ensures r.Keys == custom.Keys + DefaultStrategyMapping.Keys
    ensures forall name :: name in DefaultStrategyMapping ==> r[name] == DefaultStrategyMapping[name]
    ensures forall name :: name in custom && name !in DefaultStrategyMapping ==> r[name] == custom[name]
  {
    custom + DefaultStrategyMapping
  }

  /** `d.update(other)`: other's entries overwrite, all other entries stay. */
  function Update(d: Context, other: Context): (r: Context)
    ensures r.Keys == d.Keys + other.Keys
    ensures forall k :: k in other ==> r[k] == other[k]
    ensures forall k :: k in d && k !in other ==> r[k] == d[k]
  {
    d + other
  }

  /** True when every character of t is a backslash. */
  predicate AllBackslashes(t: string) {
    forall i :: 0 <= i < |t| ==> t[i] == '\\'
  }

  /** True when s is empty or does not end in a backslash. */
  predicate NoTrailingBackslash(s: string) {
    s == [] || s[|s| - 1] != '\\'
  }

  /** `url.rstrip('\\')`: drop trailing backslash characters (forward
      slashes are kept). The result is a prefix of the input with no
      trailing backslash, and what was dropped is backslashes only. */
  function RStripBackslash(s: string): (r: string)
    ensures |r| <= |s| && r == s[..|r|]
    ensures AllBackslashes(s[|r|..])
    ensures NoTrailingBackslash(r)
    decreases |s|
  {
    if s != [] && s[|s| - 1] == '\\' then RStripBackslash(s[..|s| - 1]) else s
  }

  /** The stripped URL is the longest prefix of the input without a
      trailing backslash. */
  lemma RStripBackslashLongest(s: string, p: string)
    requires |p| <= |s| && p == s[..|p|]
    requires NoTrailingBackslash(p)
    ensures |p| <= |RStripBackslash(s)|
  {
  }

  /** Only one split of the input into a prefix without a trailing
      backslash followed by backslashes exists, and the stripped URL is
      that prefix. */
  lemma RStripBackslashUnique(s: string, p: string)
    requires |p| <= |s| && p == s[..|p|]
    requires NoTrailingBackslash(p)
    requires AllBackslashes(s[|p|..])
    ensures p == RStripBackslash(s)
  {
  }

  /** A URL without a trailing backslash is left as it is; in particular
      stripping twice is stripping once. */
  lemma RStripBackslashIdempotent(s: string)
    ensures RStripBackslash(RStripBackslash(s)) == RStripBackslash(s)
  {
  }

  /** The body of the try block of is_enabled: `self.features[feature_name]`
      (a KeyError when the name is unknown) and then the feature's own
      evaluation. */
  function EvaluateFeature(features: map<string, Feature>, featureName: string,
                           context: Context, defaultValue: bool): (r: Result<bool>)
    ensures featureName !in features ==> r == Failure(KeyError(featureName))
    ensures featureName in features ==> r == features[featureName].isEnabled(context, defaultValue)
  {
    var feature :- Lookup(features, featureName);
    feature.isEnabled(context, defaultValue)
  }

  /** The client class. It shares its name with the module, as the Python
      class shares its name with its package; outside this module write
      `UnleashClient.UnleashClient` (or import the module under an alias). */
  class UnleashClient {
    // configuration, fixed at construction
    const url: string
    const appName: string
    const environment: string
    const instanceId: string
    const refreshInterval: int
    const metricsInterval: int
    const disableMetrics: bool
    const disableRegistration: bool
    const customHeaders: map<string, string>
    const staticContext: Context
    const strategyMapping: map<string, StrategyClass>

    // state
    var features: map<string, Feature>
    var isInitialized: bool

    /** What the constructor establishes about the configuration; it never
        changes afterwards. */
    ghost predicate Valid() {
      && staticContext == map["appName" := appName, "environment" := environment]
      && DefaultStrategyMapping.Keys <= strategyMapping.Keys
      && NoTrailingBackslash(url)
    }

    constructor (url: string, appName: string, environment: string := "default",
                 instanceId: string := "unleash-client-python",
                 refreshInterval: int := 15, metricsInterval: int := 60,
                 disableMetrics: bool := false, disableRegistration: bool := false,
                 customHeaders: map<string, string> := map[],
                 customStrategies: map<string, StrategyClass> := map[])
      ensures Valid()
      ensures this.url == RStripBackslash(url)
      ensures this.appName == appName && this.environment == environment
      ensures this.instanceId == instanceId
      ensures this.refreshInterval == refreshInterval && this.metricsInterval == metricsInterval
      ensures this.disableMetrics == disableMetrics && this.disableRegistration == disableRegistration
      ensures this.customHeaders == customHeaders
      ensures strategyMapping == MergeStrategies(customStrategies)
      ensures features == map[]
      ensures !isInitialized
    {
      this.url := RStripBackslash(url);
      this.appName := appName;
      this.environment := environment;
      this.instanceId := instanceId;
      this.refreshInterval := refreshInterval;
      this.metricsInterval := metricsInterval;
      this.disableMetrics := disableMetrics;
      this.disableRegistration := disableRegistration;
      this.customHeaders := customHeaders;
      staticContext := map["appName" := appName, "environment" := environment];
      strategyMapping := MergeStrategies(customStrategies);
      features := map[];
      isInitialized := false;
    }

    /** initialize_client. `loaded` is what the first fetch (done by code
        outside this model) leaves in the shared features dictionary; the
        client is initialised afterwards. */
    method InitializeClient(loaded: map<string, Feature>)
      modifies this
      ensures features == loaded
      ensures isInitialized
    {
      features := loaded;
      isInitialized := true;
    }

    /** is_enabled. The caller's context is updated with the static
        context before anything else; the updated dictionary is returned.
        The client itself is not changed. */
    method IsEnabled(featureName: string, context: Context := map[], defaultValue: bool := false)
      returns (enabled: bool, updatedContext: Context)
      requires Valid()
      // the context: appName and environment overwritten, everything else kept
      ensures updatedContext.Keys == context.Keys + {"appName", "environment"}
      ensures updatedContext["appName"] == appName && updatedContext["environment"] == environment
      ensures forall k :: k in context && k != "appName" && k != "environment" ==> updatedContext[k] == context[k]
      // the answer
      ensures !isInitialized ==> enabled == defaultValue
      ensures isInitialized && featureName !in features ==> enabled == defaultValue
      ensures isInitialized && featureName in features ==>
                match features[featureName].isEnabled(updatedContext, defaultValue)
                case Success(v) => enabled == v
                case Failure(_) => enabled == defaultValue
    {
      updatedContext := Update(context, staticContext);
      if isInitialized {
        var outcome := EvaluateFeature(features, featureName, updatedContext, defaultValue);
        match outcome
        case Success(v) => enabled := v;
        case Failure(_) => enabled := defaultValue;
      } else {
        enabled := defaultValue;
      }
    }
  }
}
