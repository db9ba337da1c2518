# gost dictionary settings — a Dafny model

The vulnerability scanner reads its gost dictionary (security advisories
from OS vendors) from a local SQLite file, a database server or a gost
server reached over HTTP. `config/gostconf.go` holds the `GostConf` settings
object with three fields: `Type`, `URL` and `SQLite3Path`. This project
models two things in module `GostConfig` (`gostconf.dfy`):

- **Resolution.** `Init` lets each non-empty environment variable
  (`GOSTDB_TYPE`, `GOSTDB_URL`, `GOSTDB_SQLITE3_PATH`) overwrite its field.
  Then `setDefault` sets an empty type to `sqlite3`. When neither a URL nor
  a path is set, it also sets the path to `gost.sqlite3` in the working
  directory. The class `GostConf` mutates its fields as the Go methods do.
  `SetDefault` and `Init` are proved equal to the pure functions
  `WithDefaults` and `Resolve`. The properties are proved about those
  functions.
- **Health check.** `CheckHTTPHealth` skips the probe unless the consulted
  type is `http`. Otherwise it requests `URL + "/health"`. It succeeds only
  with no transport error, a response and status 200. Any other outcome
  gives an error naming the URL and the transport errors. `CheckHealth`
  states this decision. The method `GostConf.CheckHTTPHealth` is proved to
  follow it.

Inputs instead of I/O:

- The process environment is a `map<string, string>`. An absent key reads
  as `""`, as with `os.Getenv`.
- The working directory is a string. `""` stands for a failed `os.Getwd`,
  whose error the source discards.
- The HTTP request is replaced by its outcome. This is the list of
  transport error texts, whether a response came back, and its status code.

Points of the code worth noting:

- `IsFetchViaHTTP` (config/gostconf.go:55-57) reads the process-wide
  `Conf.Gost.Type`, not the receiver's `Type`. So `CheckHTTPHealth` on any
  `GostConf` other than the global one follows the global's mode. The model
  passes the global config as an explicit parameter.
  `GostConf.FetchViaHTTPOnGlobal` shows that the test is the receiver's own
  `Type == "http"` when the receiver is the global config.
- With a failed `os.Getwd` the default path is the relative `gost.sqlite3`.
- `Type` is a free-form string. The default is `"sqlite3"`, and only
  `"http"` is compared against.

## Model

| member | source | states |
|---|---|---|
| `GostConfig.JoinPath` | config/gostconf.go:29-30 | joining the working directory and the file name yields the name alone when the directory is empty, and otherwise starts with the directory and ends with the name, with exactly one separator between them (none added when the directory already ends in `/`), as its length shows; a non-empty name gives a non-empty path |
| `GostConfig.ApplyEnv` | config/gostconf.go:42-50 | each bound variable that is non-empty overwrites its field; each empty or absent one leaves its field as it was |
| `GostConfig.WithDefaults` | config/gostconf.go:24-32 | after setDefault the type is non-empty: `sqlite3` when it was empty, unchanged otherwise; and URL and path are never both empty; the URL is never changed; a non-empty path, or any path when the URL is set, is kept; with both empty the path becomes the joined default file |
| `GostConfig.Resolve` | config/gostconf.go:38-52 | after Init each non-empty bound variable's value is in its field whatever the baseline held; an empty or absent variable leaves a non-empty baseline field (and the URL always) unchanged, and leaves the path as in the baseline, even when empty, once a URL is set; the type is non-empty and defaults to `sqlite3` when variable and baseline are empty; URL and path are not both empty, and with no URL and no path the path is the default file in the working directory and the URL stays empty |
| `GostConfig.BothLocationsKept` | config/gostconf.go:28-31 | a baseline with both URL and path keeps both populated after Init: no mutual exclusion |
| `GostConfig.ResolvedType` | config/gostconf.go:41-52 | the defaulting of the type runs exactly when both `GOSTDB_TYPE` and the baseline type are empty; the resulting type is the variable, else the baseline, else `sqlite3` |
| `GostConfig.WithDefaultsIdempotent` | config/gostconf.go:24-32 | setDefault applied to its own result changes nothing |
| `GostConfig.ResolveIdempotent` | config/gostconf.go:41-52 | Init run a second time with the same environment and working directory leaves the config as the first run left it |
| `GostConfig.OnlyBoundVariablesMatter` | config/gostconf.go:34-50 | two environments that agree on the three bound variables resolve any baseline identically |
| `GostConfig.EmptyBaselineResolution` | config/gostconf.go:41-52 | an empty baseline with no variables set in `/srv/app` resolves to type `sqlite3`, empty URL and path `/srv/app/gost.sqlite3` |
| `GostConfig.EnvironmentSwitchesToHTTP` | config/gostconf.go:41-52 | a `sqlite3` baseline with path `/custom/path.db`, with type and URL set in the environment, resolves to type `http`, the environment's URL and the untouched path |
| `GostConfig.ProbeSucceeded` | config/gostconf.go:69 | the success condition of the probe: no transport errors, a response present, and status exactly 200 |
| `GostConfig.RenderErrs` | config/gostconf.go:70 | the error list is printed as `%s` prints a slice: the error texts joined by single spaces (`SpaceJoined`) inside brackets, `[]` when there are no errors; every error text appears in the result |
| `GostConfig.FailureMessage` | config/gostconf.go:70 | the text of the failure error contains the probed URL and every transport error text |
| `GostConfig.CheckHealth` | config/gostconf.go:59-73 | no request is sent exactly when the consulted mode is not `http`; a sent request goes to `URL + "/health"`; it yields the nil error exactly when there are no transport errors, a response is present and the status is 200 |
| `GostConfig.SkippedOutsideHTTP` | config/gostconf.go:60-63 | outside `http` mode the check returns the nil error for every URL and every network outcome |
| `GostConfig.HTTPModeVerdict` | config/gostconf.go:65-72 | in `http` mode a request is always sent, and the error is nil if and only if the probe succeeded |
| `GostConfig.SpaceJoinedContainsEach` | config/gostconf.go:70 | each transport error text appears in the rendering of the error list |
| `GostConfig.FailureNamesTargetAndCauses` | config/gostconf.go:65-71 | a returned error message contains the probed `URL + "/health"`, hence the configured URL, and every transport error text |
| `GostConfig.HealthyServer` | config/gostconf.go:65-72 | a 200 answer from `https://gost.example.com/health` gives the nil error |
| `GostConfig.GostConf.constructor` | config/gostconf.go:13-22 | a new settings object holds the three given field values |
| `GostConfig.GostConf.SetDefault` | config/gostconf.go:24-32 | the fields after the method are `WithDefaults` of the fields before it |
| `GostConfig.GostConf.Init` | config/gostconf.go:41-52 | the fields after the method are `Resolve` of the fields before it, the environment and the working directory |
| `GostConfig.GostConf.IsFetchViaHTTP` | config/gostconf.go:55-57 | the test reads only the global config (its `reads` frame) and holds when the global's type is `http` |
| `GostConfig.GostConf.FetchViaHTTPOnGlobal` | config/gostconf.go:55-57 | called on the global config itself, IsFetchViaHTTP holds exactly when the receiver's own type is `http` |
| `GostConfig.GostConf.CheckHTTPHealth` | config/gostconf.go:60-73 | the result follows `CheckHealth` on the global config's type and the receiver's URL: skipped when the global is not in `http` mode, else a request to `URL + "/health"` whose error is nil exactly on a successful probe |

## Left out

- `os.Getenv` and `os.Getwd` are not called. The environment and the working directory are inputs.
- The HTTP GET through `gorequest` (config/gostconf.go:66) is network I/O in a foreign library. Only its outcome is modelled, as an input.
- `GostConfig.JoinPath`: Unix separator only: `/` is used where Go's `filepath.Join` uses the OS separator (`\` on Windows). It does not model Go's `filepath.Clean`. Only a trailing `/` on the directory is handled. `os.Getwd` may return `$PWD` as it stands, so a directory that is not already clean (`/srv/app/`, `/srv//app`, `/srv/./app`) gives a path that `filepath.Join` would clean and the model does not.
- How `fmt` renders a single error value is not modelled. Each transport error is given by its text, and the list is rendered as `[e1 e2 …]`.
- The JSON tags on `URL` and `SQLite3Path` concern an external encoder.
- The commented-out debug and proxy variants of the request (config/gostconf.go:67-68) are not code.
- The process-wide `Conf` object is not modelled beyond the global `GostConf` passed to `IsFetchViaHTTP` and `CheckHTTPHealth`.
- Concurrent calls to `Init` on one object are out of scope, as in the source.
