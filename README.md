# Unleash client gate and session-id rollout, in Dafny

This project models two pieces of the Python Unleash feature-toggle client.

The first is the `UnleashClient` class in `UnleashClient/__init__.py`:
- the constructor strips trailing backslashes from the server URL;
- it builds the static context (`appName`, `environment`) and merges the custom strategy table with the seven built-in strategies;
- it starts uninitialised, and `initialize_client` sets the flag;
- `is_enabled` writes the static context into the caller's context first. An uninitialised client returns the caller's default. An initialised one looks the feature up and asks it. An unknown name or any exception raised by the feature also gives the default.

The second is the `gradualRolloutSessionId` strategy. It holds when the strategy's `percentage` is strictly below the normalized hash of the context's `sessionId` within the strategy's `groupId`.

Files:
- `wrappers.dfy`: `Result` and the exceptions (`KeyError`, `TypeError`, anything else) that the Python code raises.
- `strategies.dfy`: contexts, parameters, the strategy classes, and the rollout predicate.
- `unleash_client.dfy`: the client class and the pure pieces of its constructor.

What is modelled how:
- A Python exception is a `Failure` value.
- The caller's context dictionary, which `is_enabled` updates in place, goes in as a map. The updated map comes back as a second result.
- `normalized_hash` (MurmurHash3 through a C extension) is not part of this model. It is a parameter of type `Hasher`: any deterministic function into the integers, with no range assumed.
- `Feature.is_enabled` is not part of this model either. A `Feature` holds it as a total function from a context and a default to a `Result<bool>`.
- The features dictionary is filled by `fetch_and_load_features`, which is not part of this model. In `InitializeClient` it is a parameter: the dictionary that the first fetch leaves behind.

Three points of the code's behaviour matter here:
- The comparison is strict, `percentage < normalized_hash(...)`, with the percentage on the left. So a session is on when its hash is above the percentage.
- `{**custom_strategies, **default_strategy_mapping}` lets a built-in strategy override a custom one registered under the same name.
- `url.rstrip('\\')` strips backslashes, not forward slashes. A URL ending in `/` is kept as it is.

## Model

| member | source | states |
|---|---|---|
| `Strategies.Lookup` | UnleashClient/strategies/GradualRolloutSessionId.py:12-13 | a dictionary read succeeds exactly when the key is present, gives its value, and otherwise fails with a KeyError naming the key |
| `Strategies.LookupContext` | UnleashClient/strategies/GradualRolloutSessionId.py:15 | `context["sessionId"]` fails with a TypeError when the context is None (the default argument) and with a KeyError when the key is missing |
| `Strategies.LessThan` | UnleashClient/strategies/GradualRolloutSessionId.py:15 | `percentage < hash` is defined exactly for a numeric percentage, where it is the strict integer comparison; a string percentage raises a TypeError |
| `Strategies.SessionRollout` | UnleashClient/strategies/GradualRolloutSessionId.py:6-15 | missing percentage, missing groupId, a None context and a missing sessionId each fail, in exactly that order, and a string percentage then fails with a TypeError; a boolean comes back exactly when all three inputs exist and the percentage is a number, and it is true iff percentage < hash(sessionId, groupId) |
| `Strategies.SessionRolloutReadsOnlyItsInputs` | UnleashClient/strategies/GradualRolloutSessionId.py:12-15 | two evaluations that see the same percentage, groupId and sessionId (or the same missing keys) give the same result, whatever else the parameters and contexts hold: deterministic and reads nothing else |
| `Strategies.SessionRolloutAntitone` | UnleashClient/strategies/GradualRolloutSessionId.py:15 | with group, session and hash fixed, if the strategy is on at percentage p it is on at every q <= p |
| `UnleashClient.MergeStrategies` | UnleashClient/__init__.py:72-82 | the table's names are the custom names plus the seven built-in names; a built-in name always maps to its built-in class; any other custom name keeps its custom class |
| `UnleashClient.Update` | UnleashClient/__init__.py:168 | `dict.update`: the keys are the union; the second dictionary's values win; every other entry is kept |
| `UnleashClient.RStripBackslash` | UnleashClient/__init__.py:48 | the stripped URL is a prefix of the URL with no trailing backslash, and only backslashes were removed |
| `UnleashClient.RStripBackslashLongest` | UnleashClient/__init__.py:48 | every prefix of the URL without a trailing backslash is at most as long as the stripped URL |
| `UnleashClient.RStripBackslashUnique` | UnleashClient/__init__.py:48 | a split of the URL into a prefix without a trailing backslash plus backslashes only is unique, and its prefix is the stripped URL |
| `UnleashClient.RStripBackslashIdempotent` | UnleashClient/__init__.py:48 | stripping a stripped URL changes nothing |
| `UnleashClient.EvaluateFeature` | UnleashClient/__init__.py:172 | an unknown feature name raises a KeyError naming it; a known one gives exactly the feature's own `is_enabled(context, default_value)` result |
| `UnleashClient.UnleashClient.constructor` | UnleashClient/__init__.py:21-85 | the URL is the backslash-stripped argument; the static context maps appName and environment to the arguments; the strategy table is the merge; the other settings are stored as given; features is empty and the client is not initialised |
| `UnleashClient.UnleashClient.InitializeClient` | UnleashClient/__init__.py:87-136 | afterwards the client is initialised and holds the features that the first fetch loaded |
| `UnleashClient.UnleashClient.IsEnabled` | UnleashClient/__init__.py:153-180 | the returned context has appName and environment set to the client's values, whatever the caller sent, and every other key unchanged, initialised or not; an uninitialised client, an unknown feature and a failing feature each give default_value; otherwise the result is exactly the feature's verdict on the updated context; the client itself is not changed, and for a dictionary context no error escapes |

## Left out

- Registration, the first fetch and metrics sending (`register_client`, `fetch_and_load_features`, `aggregate_and_send_metrics`): HTTP calls in files that are not part of this model. `InitializeClient` takes the features they load as a parameter.
- The background scheduler, the refresh and metrics jobs, and `destroy` (lines 65-67, 126-134, 138-150). These are threading and job plumbing. The model has no concurrency.
- The `FileCache`, its `cache_directory` argument, and the last-metrics-sent timestamp (lines 63, 68-69). These are file I/O and the wall clock.
- Logging (lines 174-175, 178-179).
- The body of `normalized_hash`. It is uninterpreted: a `Hasher` parameter.
- Feature: the model treats `Feature.is_enabled` as a deterministic function without effects. So it captures neither random strategies such as `gradualRolloutRandom` (two equal calls may differ in the program), nor the per-feature yes/no counters that evaluation updates for metrics sending, nor any change a feature makes to the context it is given.
- IsEnabled: the context is a dictionary. Passing `None` makes `context.update(...)` raise outside the `try` (line 168), and that error reaches the caller; the model does not capture this.
- `Feature.is_enabled` and the other six strategies: their code is not part of this model. In particular the model says nothing about global enable flags, OR over strategies, or constraints.
- Floating-point percentages. A parameter value is an integer or a string.
- How the strategy base class loads its parameters. `SessionRollout` takes the parameter dictionary as the strategy object holds it.
- Python's shared mutable default `context={}` of `is_enabled`. Every call writes the same two keys, so the answer and the returned context are the same as with a fresh empty dictionary. The model uses a fresh one.
