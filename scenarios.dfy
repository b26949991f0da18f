/** Runs of the system that the repository's own tests describe, replayed on
    the model with concrete inputs: the registry in app_test.go's
    TestInitFunc and TestInitApp, and a log file rotating into a new bucket. */
module Scenarios {
  import opened Helpers
  import opened AppConfig
  import opened LogPaths
  import opened LogPool
  import opened App

  /** A registry of one name visits its callback once. */
  lemma OneCallback(a: string, x: Callback)
    ensures ValuesBag(map[a := x]) == multiset{x}
  {
    var m := map[a := x];
    ValuesBagRemove(m, a);
    assert m - {a} == map[];
  }

  /** A registry of two names, such as TestInitFunc's once InitApp has added
      initialLog, visits each of its two callbacks once. */
  lemma TwoCallbacks(a: string, b: string, x: Callback, y: Callback)
    requires a != b
    ensures ValuesBag(map[a := x, b := y]) == multiset{x, y}
  {
    var m := map[a := x, b := y];
    DropFirst(a, b, x, y);
    OneCallback(b, y);
    ValuesBagRemove(m, a);
  }

  /** Dropping the first of two names leaves a registry of the second. */
  lemma DropFirst(a: string, b: string, x: Callback, y: Callback)
    requires a != b
    ensures map[a := x, b := y][a] == x
    ensures map[a := x, b := y] - {a} == map[b := y]
  {
  }

  /** The logging level initialLog derives from the two configuration files
      of TestInitFunc. */
  lemma TestLevels(debug: bool, hostname: Option<string>)
    ensures InitialLogSettings(Some(map["LOG_ENABLE_LEVEL" := "info"]), debug, hostname).level == Info
    ensures InitialLogSettings(Some(map["LOG_ENABLE_LEVEL" := "debug", "update_val" := "update"]), debug, hostname).level == Debug
  {
    assert LevelOf("info") == Info by { assert "info"[0] == 'i'; }
    assert LevelOf("debug") == Debug;
  }

  /** The first half of TestInitFunc: register callback "test", then InitApp
      with a configuration that loads. */
  method StartWithCallback(original: Config, host: Option<string>) returns (rt: Runtime, pool: Pool)
    ensures fresh(rt) && fresh(pool)
    ensures rt.Valid() && rt.app.Some? && rt.app.value.debug && rt.listeners == 1
    ensures rt.appConf == Some(original)
    ensures rt.initFuncs == map["test" := User(0), InitLogName := InitLog]
    ensures rt.calls == multiset{User(0)}
    ensures pool.settings == InitialLogSettings(Some(original), true, host)
  {
    pool := new Pool();
    rt := new Runtime();
    rt.RegisterInitFunc("test", User(0));
    OneCallback("test", User(0));
    rt.InitApp(true, "", ConfigParam("app", "toml"), Some(original), Some(original), host, pool);
  }

  /** TestInitFunc: a callback registered before InitApp runs once during
      InitApp and once more per configuration change, and every change also
      re-derives the logging settings through the registered initialLog from
      the configuration that is now loaded. The counts returned are the
      callback's invocations so far; the test's counter starts at 1, so it
      reads 2, 3 and 4. */
  method InitFuncScenario(original: Config, update: Config, host: Option<string>)
    returns (afterInit: nat, afterUpdate: nat, afterRevert: nat,
             settingsInit: Settings, settingsUpdate: Settings, settingsRevert: Settings)
    ensures afterInit == 1 && afterUpdate == 2 && afterRevert == 3
    ensures settingsInit == InitialLogSettings(Some(original), true, host)
    ensures settingsUpdate == InitialLogSettings(Some(update), true, host)
    ensures settingsRevert == settingsInit
  {
    var rt, pool := StartWithCallback(original, host);
    afterInit := rt.calls[User(0)];
    settingsInit := pool.settings;
    assert InitLog in rt.initFuncs.Values by { assert rt.initFuncs[InitLogName] == InitLog; }
    assert "test" != InitLogName by { assert |"test"| != |InitLogName|; }
    TwoCallbacks("test", InitLogName, User(0), InitLog);

    rt.ConfigChanged(update, host, pool);
    afterUpdate := rt.calls[User(0)];
    settingsUpdate := pool.settings;

    rt.ConfigChanged(original, host, pool);
    afterRevert := rt.calls[User(0)];
    settingsRevert := pool.settings;
  }

  /** TestInitFunc's reads: before the change LOG_ENABLE_LEVEL is "info" and
      update_val falls back to "none"; after it they are "debug" and "update". */
  method ConfigReadScenario() returns (level1: string, value1: string, level2: string, value2: string)
    ensures level1 == "info" && value1 == "none"
    ensures level2 == "debug" && value2 == "update"
  {
    var pool := new Pool();
    var rt := new Runtime();
    var original: Config := map["LOG_ENABLE_LEVEL" := "info"];
    var update: Config := map["LOG_ENABLE_LEVEL" := "debug", "update_val" := "update"];
    rt.InitApp(true, "", ConfigParam("app", "toml"), Some(original), Some(original), None, pool);
    level1 := rt.GetStringConfig("LOG_ENABLE_LEVEL", "debug", None);
    value1 := rt.GetStringConfig("update_val", "none", None);
    assert "update_val" !in original by { assert |"update_val"| != |"LOG_ENABLE_LEVEL"|; }
    rt.ConfigChanged(update, None, pool);
    level2 := rt.GetStringConfig("LOG_ENABLE_LEVEL", "debug", None);
    value2 := rt.GetStringConfig("update_val", "none", None);
  }

  /** TestInitApp: after Reset, InitApp starts a fresh listener, and a key the
      configuration lacks reads as its default. */
  method ResetScenario() returns (listenersAfterReset: nat, listenersAfterInit: nat, value: string)
    ensures listenersAfterReset == 0 && listenersAfterInit == 1
    ensures value == "abc"
  {
    var pool := new Pool();
    var rt := new Runtime();
    var conf: Config := map["LOG_ENABLE_LEVEL" := "info"];
    rt.InitApp(true, "", ConfigParam("app", "toml"), Some(conf), Some(conf), None, pool);
    rt.Reset();
    listenersAfterReset := rt.listeners;
    rt.InitApp(true, "", ConfigParam("app", "toml"), Some(conf), Some(conf), None, pool);
    listenersAfterInit := rt.listeners;
    value := rt.GetStringConfig("abc", "abc", None);
    assert "abc" !in conf by { assert |"abc"| != |"LOG_ENABLE_LEVEL"|; }
  }

  /** A writer stays cached while its bucket's file exists; once the clock
      reaches another bucket, the
      staleness pass drops it and the next lookup opens a new handle on the
      new bucket's file. */
  method RotationRun(s: Settings, k: string, b1: string, b2: string, t1: int, t2: int, t3: int)
    returns (first: Result<nat, FsError>, hit: Result<nat, FsError>, rotated: Result<nat, FsError>,
             oldFile: string, newFile: string)
    requires b1 != b2
    requires t1 <= t3 && t3 - t1 <= StaleSeconds
    ensures first.Ok? && hit == first
    ensures rotated.Ok? && rotated.value != first.value
    ensures oldFile == LogFile(s, b1, k) && newFile == LogFile(s, b2, k)
    ensures oldFile != newFile
  {
    var pool := new Pool();
    pool.settings := s;
    var disk := new Disk({}, {});
    var ok := Faults(false, false, false, false);
    first := pool.Instance(k, t1, b1, disk, ok);
    oldFile := pool.writers[k].file;
    hit := pool.Instance(k, t2, b1, disk, ok);
    LogFileRotates(pool.settings, b1, b2, k);
    assert LogFile(pool.settings, b2, k) !in disk.files;
    pool.StalenessPass(t3, b2, disk);
    assert k !in pool.writers;
    rotated := pool.Instance(k, t3, b2, disk, ok);
    newFile := pool.writers[k].file;
  }

  /** That run on the settings initialLog installs for LOG_DIR "/var/log/svc"
      on host "h1", whose daily layout 20060102 makes the buckets days: key
      "access" moves from 20240102 to 20240103. */
  method RotationScenario(t1: int, t2: int, t3: int)
    returns (first: Result<nat, FsError>, hit: Result<nat, FsError>, rotated: Result<nat, FsError>,
             oldFile: string, newFile: string)
    requires t1 <= t3 && t3 - t1 <= StaleSeconds
    ensures first.Ok? && hit == first
    ensures rotated.Ok? && rotated.value != first.value
    ensures oldFile == "/var/log/svc/" + "20240102" + "/h1/" + "access" + ".log"
    ensures newFile == "/var/log/svc/" + "20240103" + "/h1/" + "access" + ".log"
  {
    var s := InitialLogSettings(Some(map["LOG_DIR" := "/var/log/svc"]), false, Some("h1"));
    var b1, b2 := "20240102", "20240103";
    assert b1 != b2 by { assert b1[7] != b2[7]; }
    first, hit, rotated, oldFile, newFile := RotationRun(s, "access", b1, b2, t1, t2, t3);
    DailyPathExample();
    NextDayPathExample();
  }

  /** Two keys opened one after the other in the same bucket, on a fresh
      pool and an empty disk: both get their own handle and their file. */
  method OpenTwo(s: Settings, k1: string, k2: string, bucket: string, now: int)
    returns (pool: Pool, disk: Disk, r1: Result<nat, FsError>, r2: Result<nat, FsError>)
    requires k1 != k2
    ensures fresh(pool) && fresh(disk) && pool.Valid() && pool.settings == s
    ensures r1.Ok? && r2.Ok? && r1.value != r2.value
    ensures pool.writers.Keys == {k1, k2} && pool.registerTime == map[k1 := now, k2 := now]
    ensures LogFile(s, bucket, k1) in disk.files && LogFile(s, bucket, k2) in disk.files
  {
    pool := new Pool();
    pool.settings := s;
    disk := new Disk({}, {});
    var ok := Faults(false, false, false, false);
    r1 := pool.Instance(k1, now, bucket, disk, ok);
    r2 := pool.Instance(k2, now, bucket, disk, ok);
  }

  /** Opening a second key leaves the first key's file in place, so a
      staleness pass in the same bucket at the same clock keeps both writers. */
  method TwoKeysScenario(s: Settings, k1: string, k2: string, bucket: string, now: int)
    returns (r1: Result<nat, FsError>, r2: Result<nat, FsError>, kept: set<string>)
    requires k1 != k2
    ensures r1.Ok? && r2.Ok? && r1.value != r2.value
    ensures kept == {k1, k2}
  {
    var pool, disk;
    pool, disk, r1, r2 := OpenTwo(s, k1, k2, bucket, now);
    pool.StalenessPass(now, bucket, disk);
    kept := pool.writers.Keys;
    assert k1 in kept && k2 in kept;
  }
}
