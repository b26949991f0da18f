/** The application runtime of app.go: the globals App (with its AppConf),
    Conf, appInitFunc and listenFuncTime, and the operations on them. A load
    of the configuration backend is an input `Option<Config>` (None when
    Conf.Instance fails); the listener goroutine is a count of running
    listeners, and one configuration change is one call of ConfigChanged. */
module App {
  import opened Helpers
  import opened AppConfig
  import opened LogPaths
  import opened LogPool

  /** The name InitApp registers initialLog under. */
  const InitLogName := "cocoreInitLog"

  /** A registered init callback: initialLog itself, or an application callback by id. */
  datatype Callback = InitLog | User(id: nat)

  /** ConfigParam: which configuration source InitConf and Conf.Instance open. */
  datatype ConfigParam = ConfigParam(name: string, parseType: string)

  /** The Application record apart from its AppConf field. */
  datatype AppInfo = AppInfo(debug: bool, appEnv: string, params: ConfigParam)

  /** AppConf after one loadAppConf attempt against a backend answer. */
  function AfterLoad(appConf: Option<Config>, backend: Option<Config>): (r: Option<Config>)
    ensures appConf.Some? ==> r == appConf
    ensures appConf.None? ==> r == backend
  {
    if appConf.Some? then appConf else backend
  }

  /** A second load attempt against the same backend answer changes nothing. */
  lemma AfterLoadSettles(appConf: Option<Config>, backend: Option<Config>)
    ensures AfterLoad(AfterLoad(appConf, backend), backend) == AfterLoad(appConf, backend)
  {
  }

  /** What RegisterInitFunc does to the registry: `name` is added if it was
      new, now holds `f`, and every other name keeps its callback. */
  lemma RegistryOverwrite(m: map<string, Callback>, name: string, f: Callback)
    ensures m[name := f].Keys == m.Keys + {name}
    ensures m[name := f][name] == f
    ensures forall n | n in m && n != name :: m[name := f][n] == m[n]
  {
  }

  class Runtime {
    /** App, without AppConf; None is nil. */
    var app: Option<AppInfo>
    /** App.AppConf; None is nil. */
    var appConf: Option<Config>
    /** Whether Conf (the configuration manager) is non-nil. */
    var confReady: bool
    /** appInitFunc. */
    var initFuncs: map<string, Callback>
    /** The CAS guard of listenAppConfChange. */
    var listenFuncTime: int
    /** Listener goroutines running. */
    var listeners: nat
    /** How often each callback has been invoked. */
    var calls: multiset<Callback>

    /** What listenAppConfChange relies on: at most one listener, counted by
        the guard, and only while a configuration is loaded. */
    ghost predicate GuardOk()
      reads this
    {
      && listenFuncTime == listeners && listeners <= 1
      && (listeners == 1 ==> appConf.Some?)
      && (app.None? ==> appConf.None? && listeners == 0)
    }

    /** Between operations a listener runs exactly when a configuration is loaded. */
    ghost predicate Valid()
      reads this
    {
      && GuardOk() && (appConf.Some? ==> listeners == 1)
      && (app.None? ==> InitLog !in initFuncs.Values)
    }

    /** The state after the package init of app.go. */
    constructor ()
      ensures Valid()
      ensures app.None? && appConf.None? && !confReady && initFuncs == map[]
      ensures listenFuncTime == 0 && listeners == 0 && calls == multiset{}
    {
      app := None;
      appConf := None;
      confReady := false;
      initFuncs := map[];
      listenFuncTime := 0;
      listeners := 0;
      calls := multiset{};
    }

    /** RegisterInitFunc: `name` now maps to `f`, replacing any earlier callback. */
    method RegisterInitFunc(name: string, f: Callback)
      modifies this`initFuncs
      ensures initFuncs == old(initFuncs)[name := f]
      ensures old(Valid()) && (f.User? || app.Some?) ==> Valid()
    {
      initFuncs := initFuncs[name := f];
    }

    /** listenAppConfChange: start the listener when a configuration is loaded
        and the guard moves from 0 to 1; otherwise do nothing. */
    method ListenAppConfChange()
      requires GuardOk() && app.Some?
      modifies this`listenFuncTime, this`listeners
      ensures GuardOk()
      ensures appConf.Some? && old(listenFuncTime) == 0 ==> listenFuncTime == 1 && listeners == old(listeners) + 1
      ensures appConf.None? || old(listenFuncTime) != 0 ==> listenFuncTime == old(listenFuncTime) && listeners == old(listeners)
      ensures appConf.Some? ==> listeners == 1
    {
      if appConf.Some? {
        if listenFuncTime == 0 {
          listenFuncTime := 1;
          listeners := listeners + 1;
        }
      }
    }

    /** loadAppConf: when no configuration is loaded, try the backend and, on
        success, keep its answer and try to start the listener. */
    method LoadAppConf(backend: Option<Config>)
      requires Valid() && app.Some?
      modifies this`appConf, this`listenFuncTime, this`listeners
      ensures Valid()
      ensures appConf == AfterLoad(old(appConf), backend)
      ensures old(appConf).Some? ==> listenFuncTime == old(listenFuncTime) && listeners == old(listeners)
    {
      if appConf.None? {
        if backend.Some? {
          appConf := backend;
          ListenAppConfChange();
        }
      }
    }

    /** GetStringConfig: load lazily, then the configured value unless it is
        missing or empty, else the default. */
    method GetStringConfig(key: string, default: string, backend: Option<Config>) returns (v: string)
      requires Valid() && app.Some?
      modifies this`appConf, this`listenFuncTime, this`listeners
      ensures Valid()
      ensures appConf == AfterLoad(old(appConf), backend)
      ensures old(appConf).Some? ==> listenFuncTime == old(listenFuncTime) && listeners == old(listeners)
      ensures v == ConfigValue(appConf, key, default)
    {
      if appConf.None? {
        LoadAppConf(backend);
      }
      v := default;
      if appConf.Some? {
        var value := if key in appConf.value then appConf.value[key] else "";
        if value != "" {
          v := value;
        }
      }
    }

    /** initialLog: read the logging settings through GetStringConfig and
        install them in the pool. */
    method InitialLog(pool: Pool, backend: Option<Config>, hostname: Option<string>)
      requires Valid() && app.Some?
      modifies this`appConf, this`listenFuncTime, this`listeners, pool`settings
      ensures Valid() && app == old(app) && initFuncs == old(initFuncs) && calls == old(calls)
      ensures appConf == AfterLoad(old(appConf), backend)
      ensures pool.settings == InitialLogSettings(appConf, app.value.debug, hostname)
    {
      var dir := GetStringConfig("LOG_DIR", DefaultLogDir, backend);
      ghost var loaded := appConf;
      AfterLoadSettles(old(appConf), backend);
      var levelName := GetStringConfig("LOG_ENABLE_LEVEL", LevelInfo, backend);
      assert appConf == loaded;
      var group := GetStringConfig("LOG_TIME_GROUP", GroupDaily, backend);
      assert appConf == loaded;
      pool.settings := Settings(WithTrailingSlash(dir), app.value.debug, LevelOf(levelName), LayoutOf(group),
                                HostSegment(hostname));
    }

    /** One callback invocation: initialLog re-derives the logging settings,
        an application callback only counts. */
    method Invoke(cb: Callback, pool: Pool, backend: Option<Config>, hostname: Option<string>)
      requires Valid()
      requires cb == InitLog ==> app.Some?
      modifies this`appConf, this`listenFuncTime, this`listeners, this`calls, pool`settings
      ensures Valid() && app == old(app)
      ensures calls == old(calls) + multiset{cb}
      ensures cb == InitLog ==>
        && appConf == AfterLoad(old(appConf), backend)
        && pool.settings == InitialLogSettings(AfterLoad(old(appConf), backend), app.value.debug, hostname)
      ensures cb != InitLog ==> appConf == old(appConf) && pool.settings == old(pool.settings)
    {
      calls := calls + multiset{cb};
      if cb == InitLog {
        InitialLog(pool, backend, hostname);
      }
    }

    /** initial: invoke every registered callback once. */
    method Initial(pool: Pool, backend: Option<Config>, hostname: Option<string>)
      requires Valid()
      modifies this`appConf, this`listenFuncTime, this`listeners, this`calls, pool`settings
      ensures Valid() && app == old(app) && initFuncs == old(initFuncs)
      ensures calls == old(calls) + ValuesBag(initFuncs)
      ensures InitLog in initFuncs.Values ==>
        && appConf == AfterLoad(old(appConf), backend)
        && pool.settings == InitialLogSettings(appConf, app.value.debug, hostname)
      ensures InitLog !in initFuncs.Values ==> appConf == old(appConf) && pool.settings == old(pool.settings)
    {
      ghost var loaded := AfterLoad(appConf, backend);
      ghost var info := app;
      ghost var derived := if info.Some? then InitialLogSettings(loaded, info.value.debug, hostname) else pool.settings;
      var pending := initFuncs;
      ghost var ranLog := false;
      while pending != map[]
        invariant Valid() && app == info && initFuncs == old(initFuncs)
        invariant pending.Keys <= initFuncs.Keys
        invariant forall k | k in pending :: pending[k] == initFuncs[k]
        invariant calls + ValuesBag(pending) == old(calls) + ValuesBag(initFuncs)
        invariant forall k | k in initFuncs && k !in pending :: initFuncs[k] == InitLog ==> ranLog
        invariant ranLog ==> InitLog in initFuncs.Values
        invariant ranLog ==> info.Some? && appConf == loaded && pool.settings == derived
        invariant !ranLog ==> appConf == old(appConf) && pool.settings == old(pool.settings)
        decreases pending.Keys
      {
        var key :| key in pending;
        var cb := pending[key];
        assert cb in initFuncs.Values by { assert initFuncs[key] == cb; }
        ghost var counted := calls;
        assert AfterLoad(appConf, backend) == loaded;
        Invoke(cb, pool, backend, hostname);
        BagStep(counted, pending, key, old(calls) + ValuesBag(initFuncs));
        pending := pending - {key};
        ranLog := ranLog || cb == InitLog;
      }
      if InitLog in initFuncs.Values {
        var k :| k in initFuncs && initFuncs[k] == InitLog;
        assert ranLog;
      }
    }

    /** initAppConf: the first load, with `first` the backend's answer. */
    method InitAppConf(first: Option<Config>)
      modifies this`appConf
      ensures appConf == (if first.Some? then first else old(appConf))
    {
      if first.Some? {
        appConf := first;
      }
    }

    /** InitApp: a no-op once App exists; otherwise create App and the
        configuration manager, make the first load (starting the listener on
        success), and boot the logging and the registry. */
    method InitApp(debug: bool, appEnv: string, params: ConfigParam, first: Option<Config>,
                   later: Option<Config>, hostname: Option<string>, pool: Pool)
      requires Valid()
      modifies this, pool`settings
      ensures Valid()
      ensures old(app).Some? ==>
        && app == old(app) && appConf == old(appConf) && confReady == old(confReady)
        && initFuncs == old(initFuncs) && listenFuncTime == old(listenFuncTime)
        && listeners == old(listeners) && calls == old(calls) && pool.settings == old(pool.settings)
      ensures old(app).None? ==>
        && app == Some(AppInfo(debug, appEnv, params)) && confReady
        && appConf == (if first.Some? then first else later)
        && (listeners == 1 <==> appConf.Some?)
        && pool.settings == InitialLogSettings(appConf, debug, hostname)
        && calls == old(calls) + ValuesBag(old(initFuncs))
        && initFuncs == old(initFuncs)[InitLogName := InitLog]
    {
      if app.Some? {
        return;
      }
      app := Some(AppInfo(debug, appEnv, params));
      confReady := true;
      InitAppConf(first);
      if first.Some? {
        ListenAppConfChange();
      }
      Boot(later, hostname, pool);
    }

    /** The end of InitApp: initialLog, one run of the registry, and only then
        the registration of initialLog as "cocoreInitLog". `later` answers
        every lazy load attempted on the way. */
    method Boot(later: Option<Config>, hostname: Option<string>, pool: Pool)
      requires Valid() && app.Some? && InitLog !in initFuncs.Values
      modifies this`appConf, this`listenFuncTime, this`listeners, this`calls, this`initFuncs, pool`settings
      ensures Valid() && app == old(app)
      ensures appConf == AfterLoad(old(appConf), later)
      ensures old(appConf).Some? ==> listeners == old(listeners)
      ensures pool.settings == InitialLogSettings(appConf, app.value.debug, hostname)
      ensures calls == old(calls) + ValuesBag(old(initFuncs))
      ensures initFuncs == old(initFuncs)[InitLogName := InitLog]
    {
      InitialLog(pool, later, hostname);
      Initial(pool, later, hostname);
      ghost var counted := calls;
      RegisterInitFunc(InitLogName, InitLog);
      assert calls == counted;
    }

    /** One change event from the loaded configuration: the backend now holds
        `values`, and the listener, if one runs, invokes the registry. */
    method ConfigChanged(values: Config, hostname: Option<string>, pool: Pool)
      requires Valid()
      modifies this`appConf, this`listenFuncTime, this`listeners, this`calls, pool`settings
      ensures Valid()
      ensures listenFuncTime == old(listenFuncTime) && listeners == old(listeners)
      ensures old(listeners) == 0 ==>
        appConf == old(appConf) && calls == old(calls) && pool.settings == old(pool.settings)
      ensures old(listeners) == 1 ==>
        && appConf == Some(values)
        && calls == old(calls) + ValuesBag(initFuncs)
        && (InitLog in initFuncs.Values ==> pool.settings == InitialLogSettings(appConf, app.value.debug, hostname))
        && (InitLog !in initFuncs.Values ==> pool.settings == old(pool.settings))
    {
      if listeners == 1 {
        appConf := Some(values);
        Initial(pool, None, hostname);
      }
    }

    /** Reset: every global back to its state before InitApp; the listener is stopped. */
    method Reset()
      modifies this`app, this`appConf, this`confReady, this`initFuncs, this`listenFuncTime, this`listeners
      ensures Valid()
      ensures app.None? && appConf.None? && !confReady && initFuncs == map[]
      ensures listenFuncTime == 0 && listeners == 0
    {
      app := None;
      appConf := None;
      confReady := false;
      initFuncs := map[];
      listenFuncTime := 0;
      listeners := 0;
    }
  }
}
