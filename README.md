# cocore: the log sink pool and the application runtime

This project models the two stateful cores of the Go package `cocore` and proves properties of the model.

1. **The log sink pool** (`logger.go`). `LogPool` is a `Logger` holding three maps:
   - `writers`: key → logger handle, release function and file;
   - `registerTime`: key → creation second;
   - `free`: path → pending release.

   `Instance(k)` looks a key up or creates its file and logger. One background loop invokes and drops every pending release. A second loop evicts a key when it has stood longer than 86410 seconds, or when its file for the current time bucket is gone. The files live at `LogDir + bucket + LogHost + key + ".log"`.

   `initialLog` derives the pool-wide settings from the configuration and the hostname:
   - the log directory, normalised to end in "/";
   - the level switch;
   - the daily or hourly layout;
   - the host segment.

2. **The application runtime** (`app.go`). It holds:
   - the `App` record with its loaded configuration `AppConf`;
   - the configuration manager flag `Conf`;
   - the init-callback registry `appInitFunc`;
   - the compare-and-swap guard `listenFuncTime`, which allows at most one change listener.

   Its operations:
   - `RegisterInitFunc` overwrites a registry entry by name.
   - `initial` runs every registered callback once.
   - `GetStringConfig` loads the configuration lazily, then returns the configured value or the default.
   - `InitApp` does nothing once `App` exists. Otherwise it starts up in order: the first load, the listener, `initialLog`, one run of the registry, and only then the registration of `initialLog` as "cocoreInitLog".
   - `Reset` returns the globals to their state before start-up.

Modules, one per file:
- `Helpers` (helpers.dfy): `Option` and `Result`, Go's `strings.HasPrefix`/`HasSuffix`, and the multiset of a map's values. The multiset is what ranging over a map visits.
- `AppConfig` (appconfig.dfy): the value-or-default rule of `GetStringConfig`.
- `LogPaths` (logpaths.dfy): the pure parts of `logger.go`, as functions and lemmas.
- `LogPool` (logpool.dfy): the classes `Disk` and `Pool`, with `Instance`, `initLogFile`, `newLogger` and one pass of each sweeper as methods. The sweeper passes are loops over the key set.
- `App` (app.dfy): the class `Runtime` holding the globals of `app.go`.
- `Scenarios` (scenarios.dfy): runs described by `app_test.go`, replayed on the model, plus a rotation run of the pool.

Inputs that the Go code takes from its environment become parameters:
- the clock is an integer `now`;
- the clock formatted with the layout (`time.Now().In(TimeLocation).Format(LogFormat)`) is a string `bucket`;
- `os.Hostname` is an `Option<string>`;
- a load of the configuration backend is an `Option<Config>`, `None` when it fails;
- the filesystem is the set of existing directories and files (`Disk`), and which filesystem calls fail is a `Faults` record.

Logger handles and release functions are numbers. Each callback invocation is counted in the `calls` multiset. Each release function invoked is recorded in the ghost multiset `released`.

Three points about rotation and release, as the live code behaves:
- A cache hit in `Instance` never looks at the bucket or the file. Commented-out lines at logger.go:147-154 would have returned a hit only while the key's file for the current bucket exists; otherwise they would have queued the old writer's release in `free`, dropped the writer and opened the current file. The live code does none of this. A key therefore moves to a new bucket only after the staleness sweep has dropped its writer. `Scenarios.RotationRun` and `Scenarios.RotationScenario` show this.
- Nothing in the live code ever adds to `free`. Evicted writers are dropped from `writers` without their release function being queued, so it is never called. `ReleasePass` is therefore proved for an arbitrary `free`, and every other operation leaves `free` unchanged.
- The staleness age is the constant 86410 seconds, whatever the layout.

## Model

| member | source | states |
|---|---|---|
| Helpers.ValuesBag | app.go:138 | What `range` over a map visits: the multiset of its values, one per key, as `initial` ranges over `appInitFunc` and the release sweeper over `free` (logger.go:61). Its size is the number of keys; its properties are the three lemmas below. |
| Helpers.ValuesBagRemove | app.go:136-141 | Ranging over a map visits the same multiset of values whichever key is taken first: the bag of values is the value of any key plus the bag of the rest. |
| Helpers.ValuesBagCount | app.go:136-141 | A value occurs in the bag of a map exactly as often as there are keys mapping to it, so every registered callback is visited once per registration. |
| Helpers.ValuesBagMembers | app.go:136-141 | The bag holds exactly the map's values. |
| AppConfig.ConfigValue | app.go:78-84 | A loaded, non-empty value under the key is returned. A missing configuration, a missing key or an empty value gives the default. Any result other than the default is the stored value. |
| LogPaths.WithTrailingSlash | logger.go:94-97 | The result ends in "/"; a directory already ending in "/" is unchanged; otherwise exactly one "/" is appended. |
| LogPaths.HostSegment | logger.go:114-121 | LogHost from the hostname lookup: "/" when the lookup failed or gave "", else "/" + the hostname with a trailing "/" added if missing. What it guarantees is stated by HostSegmentShape. |
| LogPaths.HostSegmentShape | logger.go:114-121 | LogHost starts and ends with "/". It is exactly "/" when the lookup failed or returned "". Otherwise it is "/" followed by the hostname and at most one added "/", and a hostname already ending in "/" gets none. |
| LogPaths.LevelOf | logger.go:99-108 | "warn", "error" and "debug" select their own levels; every other string selects Info (both directions). |
| LogPaths.LayoutOf | logger.go:109-113 | "hour" selects 20060102T15, and every other value selects 20060102 (both directions). |
| LogPaths.InitialLogSettings | logger.go:93-122 | The five globals initialLog sets, each from its configuration key or default, the DEBUG flag and the hostname. What it guarantees is stated by InitialLogSettingsShape and DefaultSettings. |
| LogPaths.InitialLogSettingsShape | logger.go:93-122 | Whatever the configuration holds: LogDir ends in "/"; LogHost is wrapped in "/"; the layout is daily or hourly, and hourly exactly when LOG_TIME_GROUP is "hour"; Debug is the DEBUG flag; the level follows LOG_ENABLE_LEVEL. |
| LogPaths.DefaultSettings | logger.go:94-113 | Without a loaded configuration the settings are "/data/logs/", Info and the daily layout. |
| LogPaths.LogPath | logger.go:176-178 | getLogPath starts with LogDir, ends with LogHost, and carries the bucket between them. |
| LogPaths.LogFile | logger.go:172-174 | getLogFile extends getLogPath by the key and ".log". |
| LogPaths.LogFileInjective | logger.go:172-174 | Within one bucket two keys share a file only if they are equal. |
| LogPaths.LogFileRotates | logger.go:172-174 | Two different buckets, of the same layout or not, give a key two different files. |
| LogPaths.ExampleSettings | logger.go:94-121 | LOG_DIR "/var/log/svc" with hostname "h1" installs LogDir "/var/log/svc/" and LogHost "/h1/". |
| LogPaths.DailyPathExample | logger.go:172-174 | Under those settings, key "access" in bucket 20240102 is written to /var/log/svc/20240102/h1/access.log. |
| LogPaths.NextDayPathExample | logger.go:172-174 | Under the same settings, the next day's bucket 20240103 puts key "access" in /var/log/svc/20240103/h1/access.log. |
| LogPool.Expired | logger.go:74 | A registration time is expired when it lies more than 86410 s before the pass's clock. |
| LogPool.Evicted | logger.go:74-81 | The staleness pass drops a registered key's writer when its time is expired or its file for the current bucket does not exist. |
| LogPool.FileReady | logger.go:183-203 | initLogFile succeeds when the bucket directory exists or MkdirAll succeeds, and the key's file exists or both Create and Chmod succeed; Pool.InitLogFile is proved to succeed exactly then. |
| LogPool.SweptTimes | logger.go:73-79 | After a staleness pass registerTime keeps only keys not older than 86410 s, with their times unchanged. |
| LogPool.SweptWriters | logger.go:73-86 | After a staleness pass writers keeps only keys that are neither expired nor missing their current-bucket file, with their entries unchanged. |
| LogPool.StalenessCases | logger.go:73-86 | An expired key leaves both maps. A live key whose file is missing leaves writers only and keeps its registration time. Every other key stays in both maps unchanged. |
| LogPool.SweptKeepsRegistration | logger.go:73-86 | A pass keeps every writer's registration time. |
| LogPool.SweepIdempotent | logger.go:72-87 | A second pass with the same clock and filesystem removes nothing more. |
| LogPool.Pool.constructor | logger.go:53-58 | The pool starts with three empty maps. |
| LogPool.Pool.InitLogFile | logger.go:180-205 | Succeeds exactly when the directory exists or can be made, and the file exists or can be created and chmod-ed; on success returns getLogFile. An existing file is returned without touching the disk. Nothing already on disk disappears, and only the bucket directory and the key's file can appear. A file is left behind only on success or a chmod failure. |
| LogPool.Pool.NewLogger | logger.go:124-140 | Fails exactly when zap.Open fails. Otherwise it hands out a fresh handle and release function for the file. |
| LogPool.Pool.Instance | logger.go:142-170 | A hit returns the stored handle with nothing changed. A miss succeeds exactly when initLogFile and newLogger succeed. It then adds exactly key k with file getLogFile(k), a handle distinct from every live one, and registerTime[k] = now. A failure changes no map. free never changes. Every directory and file already on disk stays; only the bucket directory and the key's file can appear. |
| LogPool.Pool.ReleasePass | logger.go:61-66 | free ends empty, and every pending release in it was invoked exactly once (released grows by the multiset of free's values). |
| LogPool.Pool.StalenessPass | logger.go:72-87 | The loop leaves registerTime and writers equal to SweptTimes and SweptWriters of the old maps, and keeps the pool invariant. |
| App.AfterLoad | app.go:62-72 | A present configuration is kept; a missing one becomes the backend's answer. |
| App.AfterLoadSettles | app.go:62-72 | A second lazy load against the same backend changes nothing. |
| App.RegistryOverwrite | app.go:32-34 | Registering adds the name to the key set, maps it to the new callback and keeps every other entry. |
| App.Runtime.constructor | app.go:18-21 | Empty registry, no App, no configuration, guard 0. |
| App.Runtime.RegisterInitFunc | app.go:32-34 | The registry maps name to f, replacing any earlier callback, and nothing else changes. |
| App.Runtime.ListenAppConfChange | app.go:45-60 | A listener starts only when a configuration is loaded and the guard is 0, and the guard becomes 1. Otherwise nothing changes, so at most one listener runs. |
| App.Runtime.LoadAppConf | app.go:62-72 | Nothing changes once a configuration is loaded. Otherwise a successful load is kept and starts the listener. |
| App.Runtime.GetStringConfig | app.go:74-85 | Loads lazily, then returns ConfigValue of the now-loaded configuration. |
| App.Runtime.InitialLog | logger.go:93-122 | The pool's settings become InitialLogSettings of the configuration loaded on the way, the DEBUG flag and the hostname. |
| App.Runtime.Invoke | app.go:138-140 | One callback runs and is counted once. initialLog re-derives the settings; an application callback changes nothing else. |
| App.Runtime.Initial | app.go:136-141 | Every registered callback runs once per registration (calls grow by the bag of the registry's values). When initialLog is registered, the settings are re-derived; otherwise the configuration and the settings are unchanged. |
| App.Runtime.InitAppConf | app.go:36-44 | The first load's answer is kept when it succeeds. |
| App.Runtime.InitApp | app.go:87-121 | Once App exists nothing changes. Otherwise: App is created; the configuration is the first load's answer, or the later one; a listener runs exactly when a configuration is loaded; the settings are derived from it; the old registry ran once; and only afterwards is "cocoreInitLog" registered. |
| App.Runtime.Boot | app.go:117-120 | initialLog runs, then the registry runs once, then initialLog is registered. |
| App.Runtime.ConfigChanged | app.go:48-57 | With a listener running, a change loads the new values and runs every registered callback once. With none, nothing changes. The guard never changes. |
| App.Runtime.Reset | app.go:124-133 | App and Conf are gone, the registry is empty, the guard is 0 and no listener runs. |
| Scenarios.OneCallback | app_test.go:59-62 | A registry holding one name, as in the test before InitApp, visits its callback once. |
| Scenarios.TwoCallbacks | app_test.go:53-77 | A registry of two distinct names, as in the test after InitApp ("test" and "cocoreInitLog"), visits each callback once. |
| Scenarios.TestLevels | logger.go:99-108 | The test's two configuration files give the levels Info and Debug. |
| Scenarios.StartWithCallback | app_test.go:54-62 | Registering "test" before InitApp runs it once during InitApp and leaves "cocoreInitLog" registered with a listener running. |
| Scenarios.InitFuncScenario | app_test.go:53-77 | The test's callback has run 1, 2 and 3 times after InitApp and after each of two changes (the test's counter reads 2, 3, 4). The settings follow the configuration loaded at each step. |
| Scenarios.ConfigReadScenario | app_test.go:63-73 | Before the change LOG_ENABLE_LEVEL reads "info" and update_val falls back to "none"; after it they read "debug" and "update". |
| Scenarios.ResetScenario | app_test.go:31-35 | After Reset no listener runs; a new InitApp starts one again; an absent key "abc" reads its default "abc". |
| Scenarios.RotationRun | logger.go:142-170 | For any settings and any two distinct buckets: a second lookup in the same bucket returns the same handle. After the clock crosses into the other bucket and the staleness pass runs, the next lookup opens a new handle on the new bucket's file, which differs from the old one. |
| Scenarios.OpenTwo | logger.go:142-170 | Two distinct keys opened in one bucket on an empty disk both succeed, with distinct handles, both registered at the clock, and both files on disk. |
| Scenarios.TwoKeysScenario | logger.go:72-87 | Opening a second key keeps the first key's file, so a staleness pass in the same bucket at the same clock keeps both writers. |
| Scenarios.RotationScenario | logger.go:93-122 | That run on the settings initialLog installs for LOG_DIR "/var/log/svc" on host "h1": key "access" is written to /var/log/svc/20240102/h1/access.log, then, after the next day's sweep, under a new handle to /var/log/svc/20240103/h1/access.log. |

## Left out

- Goroutines, sleeps and channels are not modelled: the two sweeper loops, the listener goroutine, the retry goroutine and the 3-second `select` in `InitApp`. One sweep pass, one change event (`ConfigChanged`) and one load attempt are plain method calls.
- The retry goroutine in `InitApp` (load every `ReloadTime` until it succeeds) is not modelled. Every lazy load after the first is answered by the single `later` parameter, so one backend answer stands for each phase.
- App.Runtime.Reset: the Go code first sends on the unbuffered `resetChan`. That send waits until the listener takes it, and would never return with no listener running. The model stops the listener and always returns.
- The mutexes and the unlocked map iteration in the sweepers are not modelled: this is concurrency, and the model is sequential.
- `zap.Open`, the zerolog logger, viper_conf, `utils.*`, `os.Hostname`, `os.MkdirAll`, `os.Create`, `Chmod` and `time.Format` are foreign code. They are replaced by the parameters listed above. `MkdirAll` is modelled as creating only the bucket directory, not its parents.
- LogPool.Pool.InitLogFile: the Go code reads the clock twice, once in `getLogPath` and once in `getLogFile`, so the two can fall in different buckets at a boundary. The model uses one bucket for both.
- LogPool.Pool.StalenessPass: the Go loop formats the clock once per key inside `getLogFile` (logger.go:81, 173), so keys visited on either side of a bucket boundary are checked against different buckets. The model checks every key of one pass against one `bucket`.
- LogPool.Pool.NewLogger: the level set with `logger.Level(...)` is discarded by the Go code, and the `host` field of each logger is not modelled. The pool enforces no level.
- LogPool.Pool.ReleasePass: release functions are numbers. What they do (closing a file) is not modelled, and `released` is ghost state.
- The callbacks of applications are counted, not run: a callback's own effects are not modelled. The order in which `initial` visits the registry (random in Go) is not modelled either, only the multiset of visits.
- config.go's `InitConf` is not modelled beyond the `confReady` flag it sets; it is a nil-guarded call into viper_conf.
- The signatures in the sources do not line up, so the function bodies are modelled with their inputs as explicit parameters instead:
  - `initialLog(app)` is declared with an argument and called without;
  - `InitConf` is called with one argument and declared with two;
  - the tests call `InitApp` with four arguments.
- `fmt.Println` diagnostics are output and are left out.
- LogPaths.HostSegment and LogPaths.InitialLogSettings carry no `ensures` of their own. Their properties are the lemmas HostSegmentShape and InitialLogSettingsShape, which keeps the method proofs that mention them small.
