# Heroku provider: composite ids, credential resolution and config-var merging

This project models three small pieces of deterministic logic in the Heroku
provider for Terraform, and proves properties about them:

- **Composite identifiers** (`CompositeId`, from `heroku/provider.go`).
  Association resources name themselves `a:b`. The id is split again on the
  first colon only. Parsing a built id gives back its two parts whenever the
  first part has no colon. An id with no colon is outside the domain of
  `parseCompositeID`, because it indexes the second part unconditionally.
- **Credential resolution** (`Provider`, from `heroku/provider.go`).
  `readNetrcFile` picks the netrc path: `NETRC_PATH`, or else `~/_netrc` on
  windows and `~/.netrc` elsewhere. It then classifies what stat reports:
  absent, a directory, or another error. It parses the file and looks up the
  `api.heroku.com` machine. It then either overwrites the Config's email, API
  key and headers, leaves the Config alone, or returns an error.
  `providerConfigure` decodes the `headers` setting, copies it into a header
  set, and calls `readNetrcFile`. On an error it replaces the whole Config
  with the explicit `email`, `api_key` and the headers. `Config` is a class
  whose fields `ReadNetrcFile` updates in place. The pure function
  `NetrcLookup` states which of the three outcomes happens.
- **Config vars** (`ConfigVars`, from `heroku/resource_heroku_app_config_vars.go`).
  `MergeMaps` folds its argument maps into one, and a later map wins on a
  shared key. It is proved equal to the reference fold `Merged`, and the
  lemmas cover keys, precedence, empty maps and idempotence. `Create` sends one
  update call with `public` merged with `private`, then runs `Read`.
  `Update` and `Delete` do nothing.

The environment, the home directory, the file system, the netrc parser and the
JSON decoder are inputs. `Host` holds what `NETRC_PATH`, `runtime.GOOS`, the
home directory and stat plus parsing report for each path. `ProviderData` holds
the three settings and what JSON decoding makes of `headers`. The Heroku API
client is a stand-in class. It logs every request in `calls` and answers with
fixed responses.

The comment at `heroku/provider.go:86` says that when the netrc file is "not
available" the provider falls back to the original authentication. The code
does less than that. A missing netrc file, a directory in its place, or a file
without an `api.heroku.com` machine makes `readNetrcFile` return nil, so the
fallback at lines 88-95 does not run. The explicit `email` and `api_key` are
then ignored. The Config keeps its empty fields and gets no headers
(`IgnoredNetrcIgnoresExplicitCredentials`, `MissingNetrcScenario`). The
fallback runs only when `readNetrcFile` returns an error. The model follows the
code.

## Model

| member | source | states |
|---|---|---|
| `CompositeId.BuildCompositeId` | heroku/provider.go:102-104 | the id is `a`, one colon, then `b`, and so contains a colon |
| `CompositeId.ParseCompositeId` | heroku/provider.go:106-108 | defined only on ids with a colon; the parts rejoined with a colon give the id, and the first part has no colon |
| `CompositeId.FirstSeparator` | heroku/provider.go:107 | the index of the first colon: a colon is there and none comes before it |
| `CompositeId.SplitIsUnique` | heroku/provider.go:106-108 | any split `a:b` whose `a` has no colon is the one parse returns |
| `CompositeId.RoundTrip` | heroku/provider.go:102-108 | parse(build(a, b)) == (a, b) for every `a` without a colon and every `b` |
| `CompositeId.ParseThenBuild` | heroku/provider.go:102-108 | build(parse(id)) == id for every id with a colon |
| `CompositeId.ColonInFirstComponent` | heroku/provider.go:102-108 | a colon inside the first part moves the split there, so the round trip fails |
| `CompositeId.SecondComponentKeepsColons` | heroku/provider.go:106-108 | `pipeline:app:web` parses to `pipeline` and `app:web` |
| `Provider.Config.constructor` | heroku/provider.go:72 | `Config{}` has empty email, API key and headers |
| `Provider.NetrcFileName` | heroku/provider.go:116-119 | the default file name is `netrc` behind `_` exactly on windows, and behind `.` elsewhere |
| `Provider.NetrcPath` | heroku/provider.go:113-126 | a non-empty NETRC_PATH is used verbatim; otherwise home + `/_netrc` on windows and home + `/.netrc` elsewhere; it fails exactly when NETRC_PATH is empty and the home directory is unknown |
| `Provider.FindMachine` | heroku/provider.go:148 | nothing is found exactly when no machine has the name; otherwise the result has that name and no earlier machine does |
| `Provider.FindMachineIsFirst` | heroku/provider.go:148-152 | the first machine of that name is the one found |
| `Provider.NetrcLookup` | heroku/provider.go:111-160 | a found machine is always the `api.heroku.com` one |
| `Provider.AbsentOrDirectoryIsIgnored` | heroku/provider.go:128-140 | a missing file, or a directory at the path, leaves the config untouched with no error |
| `Provider.NoHerokuMachineIsIgnored` | heroku/provider.go:148-152 | a parsed file with no `api.heroku.com` machine leaves the config untouched with no error |
| `Provider.FirstHerokuMachineIsUsed` | heroku/provider.go:148-159 | the first `api.heroku.com` machine of a parsed file supplies the credentials |
| `Provider.NetrcFailures` | heroku/provider.go:121-146 | readNetrcFile fails exactly on an unknown home directory, a stat error other than absence, or a parse error; the error is the stat error, or the parse error carrying the path |
| `Provider.ReadNetrcFile` | heroku/provider.go:111-160 | a found machine sets Email to its login, APIKey to its password and Headers to the passed headers; otherwise the config is unchanged and the error, if any, is returned |
| `Provider.CopyHeaders` | heroku/provider.go:81-84 | the header set holds exactly the decoded pairs |
| `Provider.HeadersErrorPrecedesNetrc` | heroku/provider.go:74-87 | a JSON error is returned whatever the netrc file holds, so configuration stops before the netrc read |
| `Provider.ResolveCredentials` | heroku/provider.go:71-99 | providerConfigure fails exactly when `headers` is non-empty and does not decode, with that JSON error; the headers it keeps are the decoded ones or none |
| `Provider.ResolvedHeaders` | heroku/provider.go:74-95 | when the netrc file is used or its read fails, the config's headers are none for an empty `headers` setting and the decoded object otherwise |
| `Provider.NetrcMachineSuppliesCredentials` | heroku/provider.go:87-99 | with an `api.heroku.com` machine, the config is its login, its password and the decoded headers |
| `Provider.IgnoredNetrcIgnoresExplicitCredentials` | heroku/provider.go:87-99 | when readNetrcFile leaves the config alone, the config stays empty: no fallback to `email` and `api_key`, and no headers |
| `Provider.NetrcFailureFallsBack` | heroku/provider.go:88-95 | when readNetrcFile fails, the config is the explicit `email`, `api_key` and the decoded headers |
| `Provider.MissingNetrcScenario` | heroku/provider.go:71-99 | with no netrc file, explicit `u` / `t` give an empty config |
| `Provider.UnreadableNetrcScenario` | heroku/provider.go:71-99 | with a netrc file that stat cannot examine, explicit `u` / `t` are used |
| `Provider.ProviderConfigure` | heroku/provider.go:71-99 | the result is the JSON error, or a fresh Config holding the resolved credentials |
| `ConfigVars.Merged` | heroku/resource_heroku_app_config_vars.go:108-116 | the reference fold: no maps give the empty map, and the last map's pairs all survive in the result |
| `ConfigVars.MergeMaps` | heroku/resource_heroku_app_config_vars.go:108-116 | the nested copy loops compute the left fold of map union, later maps winning |
| `ConfigVars.MergedKeys` | heroku/resource_heroku_app_config_vars.go:108-116 | the merged keys are exactly the keys of some input map |
| `ConfigVars.LastMapWins` | heroku/resource_heroku_app_config_vars.go:110-113 | a key takes its value from the last map that holds it |
| `ConfigVars.OnlyHolderKeepsValue` | heroku/resource_heroku_app_config_vars.go:111-112 | a key held by one map only keeps that map's value |
| `ConfigVars.MergeOfEmptiesIsEmpty` | heroku/resource_heroku_app_config_vars.go:108-116 | no maps, or only empty ones, merge to the empty map |
| `ConfigVars.EmptyMapIsNeutral` | heroku/resource_heroku_app_config_vars.go:108-116 | an empty map anywhere in the arguments changes nothing |
| `ConfigVars.RepeatedMapIsAbsorbed` | heroku/resource_heroku_app_config_vars.go:110-113 | repeating the last map changes nothing |
| `ConfigVars.MergeIsIdempotent` | heroku/resource_heroku_app_config_vars.go:108-116 | merging `m` with itself is merging `m` alone, which is `m` |
| `ConfigVars.CreateVars` | heroku/resource_heroku_app_config_vars.go:55-64 | the vars Create sends have exactly the keys of the `public` and `private` groups that are set |
| `ConfigVars.PrivateOverridesPublic` | heroku/resource_heroku_app_config_vars.go:64 | the keys sent are those of either group; a private value overrides a public one, and a public-only value is sent unchanged |
| `ConfigVars.UnsetGroupContributesNothing` | heroku/resource_heroku_app_config_vars.go:55-64 | with one group unset, the other group alone is sent |
| `ConfigVars.CreateError` | heroku/resource_heroku_app_config_vars.go:70 | the message is `[ERROR] Error creating `, the app name, `'s config vars: `, then the underlying message, each at its position |
| `ConfigVars.Client.UpdateConfigVars` | heroku/resource_heroku_app_config_vars.go:69 | the stand-in for `ConfigVarUpdate`: logs one update request with the app and vars, and answers the fixed error |
| `ConfigVars.Client.ConfigVarInfo` | heroku/resource_heroku_app_config_vars.go:85 | the stand-in for `ConfigVarInfoForApp`: logs one info request for the app, and answers the fixed result |
| `ConfigVars.Read` | heroku/resource_heroku_app_config_vars.go:76-96 | one info request; on error it is returned and the id is kept; on success the id is the app's UUID |
| `ConfigVars.Create` | heroku/resource_heroku_app_config_vars.go:48-74 | exactly one update request with the merged vars; on failure the wrapped error and no Read; on success the outcome of Read |
| `ConfigVars.Update` | heroku/resource_heroku_app_config_vars.go:98-101 | changes nothing and succeeds |
| `ConfigVars.Delete` | heroku/resource_heroku_app_config_vars.go:103-106 | changes nothing and succeeds |
| `ConfigVars.CreateScenario` | heroku/resource_heroku_app_config_vars.go:48-74 | public `A=1, B=3` with private `A=2` sends one update `A=2, B=3`, then one info request, and succeeds |

## Left out

- `heroku/config.go`, the client construction and its debug flag, is not part of this model. The Config's `Api` field is left out with it.
- `Provider()`'s schema and resource maps are not modelled. They register the provider with Terraform and hold no logic. Reading `email`, `api_key` and `headers` from their `HEROKU_*` environment defaults is taken as input too.
- The environment, `runtime.GOOS`, the home directory, `os.Stat`, the netrc parser and `json.Unmarshal` are inputs, not models of those libraries. The log lines are left out.
- ExpandHome: `filepath.Join`'s path cleaning in `homedir.Expand` is not modelled. The home directory is prefixed as it is.
- FindMachine: the netrc library's fallback to a `default` entry is not modelled. Only machines named `api.heroku.com` are found.
- CopyHeaders: `http.Header.Set` canonicalises key spelling and stores one-element value lists. The model keeps a plain string map with overwrite semantics.
- The type assertions `d.Get(...).(string)`, `v.(map[string]interface{})` and `v.(*string)` are assumed to succeed. The inputs are typed accordingly, and their runtime panics are not modelled.
- Create: the schema at `heroku/resource_heroku_app_config_vars.go:26-43` declares `public` and `private` as lists of maps whose values are plain strings. Against that schema, the assertions at lines 57, 60 and 112 would panic whenever a group is set. The modelled Create path is what the code evidently intends, not what it does as written.
- `getAppName` and `getAppUuid` are not part of this model. The app name is a field of `ResourceData`, and the UUID is a fixed answer of the client stand-in.
- The remote effect of `ConfigVarUpdate` and `ConfigVarInfoForApp` is not modelled. The client stand-in only records the requests, and it gives the same answer to every request.
- Read: storing the fetched vars with `d.Set("config_vars", …)` is not modelled. The source only logs that call's error, so it does not affect the result.
