/** The pure side of logger.go: the settings `initialLog` derives from the
    configuration and the hostname, and the path builder `getLogPath` /
    `getLogFile`. The clock reading formatted with the layout (Go's
    `time.Now().In(TimeLocation).Format(LogFormat)`) is an input, `bucket`. */
module LogPaths {
  import opened Helpers
  import opened AppConfig

  const DefaultLogDir := "/data/logs"
  const LevelDebug := "debug"
  const LevelInfo := "info"
  const LevelWarn := "warn"
  const LevelError := "error"
  const GroupDaily := "daily"
  const GroupHour := "hour"
  /** Go time layouts for a daily bucket (YYYYMMDD) and an hourly one (YYYYMMDDThh). */
  const DayLayout := "20060102"
  const HourLayout := "20060102T15"

  /** zerolog's levels, as far as the pool selects them. */
  datatype Level = Debug | Info | Warn | Error

  /** The pool-wide tunables: LogPool.LogDir, LogPool.Debug, LogEnableLevel,
      LogFormat and LogHost. */
  datatype Settings = Settings(logDir: string, debug: bool, level: Level, layout: string, host: string)

  /** The values of those globals before `initialLog` has ever run. */
  const InitialSettings := Settings("", false, Info, "", "")

  /** Append "/" unless the string already ends with one. */
  function WithTrailingSlash(d: string): (r: string)
    ensures HasSuffix(r, "/")
    ensures HasSuffix(d, "/") ==> r == d
    ensures !HasSuffix(d, "/") ==> r == d + "/"
    ensures HasPrefix(r, d) && |r| <= |d| + 1
  {
    if HasSuffix(d, "/") then d else d + "/"
  }

  /** LogHost from the result of os.Hostname (None when the lookup failed). */
  function HostSegment(hostname: Option<string>): string {
    var host := if hostname.Some? then hostname.value else "";
    if host == "" then "/" else "/" + WithTrailingSlash(host)
  }

  /** The host segment is "/" exactly when no hostname is known; otherwise it
      is the hostname between slashes. */
  lemma HostSegmentShape(hostname: Option<string>)
    ensures var r := HostSegment(hostname);
      && HasPrefix(r, "/") && HasSuffix(r, "/")
      && (r == "/" <==> hostname == None || hostname == Some(""))
      && (hostname.Some? && hostname.value != "" ==> HasPrefix(r[1..], hostname.value) && |r| <= |hostname.value| + 2)
      && (hostname.Some? && HasSuffix(hostname.value, "/") ==> r == "/" + hostname.value)
  {
    var r := HostSegment(hostname);
    if hostname.Some? && hostname.value != "" {
      var w := WithTrailingSlash(hostname.value);
      assert r == "/" + w && r[1..] == w;
      assert HasSuffix(r, "/") by { assert r[|r| - 1..] == w[|w| - 1..]; }
    }
  }

  /** The LOG_ENABLE_LEVEL switch: three names are recognised, anything else is Info. */
  function LevelOf(name: string): (r: Level)
    ensures r == Warn <==> name == LevelWarn
    ensures r == Error <==> name == LevelError
    ensures r == Debug <==> name == LevelDebug
    ensures r == Info <==> name != LevelWarn && name != LevelError && name != LevelDebug
  {
    if name == LevelWarn then Warn
    else if name == LevelError then Error
    else if name == LevelDebug then Debug
    else Info
  }

  /** The LOG_TIME_GROUP choice: "hour" selects the hourly layout, every other value the daily one. */
  function LayoutOf(group: string): (r: string)
    ensures r == HourLayout <==> group == GroupHour
    ensures r == DayLayout <==> group != GroupHour
  {
    if group == GroupHour then HourLayout else DayLayout
  }

  /** The settings `initialLog` installs, given the configuration it reads,
      the application's DEBUG flag and the hostname lookup. */
  function InitialLogSettings(conf: Option<Config>, debug: bool, hostname: Option<string>): Settings {
    Settings(
      WithTrailingSlash(ConfigValue(conf, "LOG_DIR", DefaultLogDir)),
      debug,
      LevelOf(ConfigValue(conf, "LOG_ENABLE_LEVEL", LevelInfo)),
      LayoutOf(ConfigValue(conf, "LOG_TIME_GROUP", GroupDaily)),
      HostSegment(hostname))
  }

  /** What every installed setting satisfies, whatever the configuration holds. */
  lemma InitialLogSettingsShape(conf: Option<Config>, debug: bool, hostname: Option<string>)
    ensures var s := InitialLogSettings(conf, debug, hostname);
      && HasSuffix(s.logDir, "/")
      && HasPrefix(s.host, "/") && HasSuffix(s.host, "/")
      && (s.layout == DayLayout || s.layout == HourLayout)
      && s.debug == debug
      && s.level == LevelOf(ConfigValue(conf, "LOG_ENABLE_LEVEL", LevelInfo))
      && (s.layout == HourLayout <==> ConfigValue(conf, "LOG_TIME_GROUP", GroupDaily) == GroupHour)
  {
    HostSegmentShape(hostname);
  }

  /** Without a loaded configuration every setting falls back to its default. */
  lemma DefaultSettings(debug: bool, hostname: Option<string>)
    ensures InitialLogSettings(None, debug, hostname)
         == Settings("/data/logs/", debug, Info, DayLayout, HostSegment(hostname))
  {
    assert DefaultLogDir[9] == 's';
    assert !HasSuffix(DefaultLogDir, "/") by { assert DefaultLogDir[9..][0] == 's'; }
    assert WithTrailingSlash(DefaultLogDir) == "/data/logs/";
    assert LevelOf(LevelInfo) == Info by {
      assert LevelInfo[0] != LevelWarn[0] && LevelInfo[0] != LevelDebug[0] && LevelInfo[0] != LevelError[0];
    }
    assert LayoutOf(GroupDaily) == DayLayout by { assert |GroupDaily| != |GroupHour|; }
  }

  /** getLogPath: the directory of the current bucket. */
  function LogPath(s: Settings, bucket: string): (r: string)
    ensures HasPrefix(r, s.logDir) && HasSuffix(r, s.host)
    ensures |r| == |s.logDir| + |bucket| + |s.host|
    ensures r[|s.logDir|..|s.logDir| + |bucket|] == bucket
  {
    s.logDir + bucket + s.host
  }

  /** getLogFile: the file of key `k` in the current bucket. */
  function LogFile(s: Settings, bucket: string, k: string): (r: string)
    ensures HasPrefix(r, LogPath(s, bucket)) && HasSuffix(r, k + ".log")
    ensures |r| == |LogPath(s, bucket)| + |k| + 4
  {
    var p := LogPath(s, bucket);
    assert (p + k + ".log")[..|p|] == p;
    assert (p + k + ".log")[|p|+|k|+4 - |k + ".log"|..] == k + ".log";
    p + k + ".log"
  }

  /** Within one bucket, distinct keys never share a file. */
  lemma LogFileInjective(s: Settings, bucket: string, k1: string, k2: string)
    requires LogFile(s, bucket, k1) == LogFile(s, bucket, k2)
    ensures k1 == k2
  {
    var p := LogPath(s, bucket);
    var f := LogFile(s, bucket, k1);
    assert |k1| == |k2|;
    assert f[|p|..|p| + |k1|] == k1 by { assert f == p + k1 + ".log"; }
    assert f[|p|..|p| + |k2|] == k2 by { assert f == LogFile(s, bucket, k2) == p + k2 + ".log"; }
  }

  /** Crossing into another bucket, of the same layout or of another one,
      gives every key a new file. */
  lemma LogFileRotates(s: Settings, b1: string, b2: string, k: string)
    requires b1 != b2
    ensures LogFile(s, b1, k) != LogFile(s, b2, k)
  {
    if |b1| != |b2| {
      return;
    }
    var d := |s.logDir|;
    var f1, f2 := LogFile(s, b1, k), LogFile(s, b2, k);
    assert f1[d..d + |b1|] == b1 by { assert f1 == LogPath(s, b1) + k + ".log"; }
    assert f2[d..d + |b2|] == b2 by { assert f2 == LogPath(s, b2) + k + ".log"; }
  }

  /** With LOG_DIR "/var/log/svc" and host "h1", initialLog installs the
      directory "/var/log/svc/" and the host segment "/h1/". */
  lemma ExampleSettings()
    ensures InitialLogSettings(Some(map["LOG_DIR" := "/var/log/svc"]), false, Some("h1")).logDir == "/var/log/svc/"
    ensures InitialLogSettings(Some(map["LOG_DIR" := "/var/log/svc"]), false, Some("h1")).host == "/h1/"
  {
    var conf: Option<Config> := Some(map["LOG_DIR" := "/var/log/svc"]);
    var dir := "/var/log/svc";
    assert ConfigValue(conf, "LOG_DIR", DefaultLogDir) == dir;
    assert !HasSuffix(dir, "/") by { assert dir[11..][0] == 'c'; }
    assert WithTrailingSlash(dir) == dir + "/";
    assert !HasSuffix("h1", "/") by { assert "h1"[1..][0] == '1'; }
  }

  /** Under those settings, key "access" on the daily bucket 20240102 is
      written to /var/log/svc/20240102/h1/access.log. */
  lemma DailyPathExample()
    ensures LogFile(InitialLogSettings(Some(map["LOG_DIR" := "/var/log/svc"]), false, Some("h1")),
                    "20240102", "access")
         == "/var/log/svc/" + "20240102" + "/h1/" + "access" + ".log"
  {
    ExampleSettings();
  }

  /** And on the next day, 20240103, to /var/log/svc/20240103/h1/access.log. */
  lemma NextDayPathExample()
    ensures LogFile(InitialLogSettings(Some(map["LOG_DIR" := "/var/log/svc"]), false, Some("h1")),
                    "20240103", "access")
         == "/var/log/svc/" + "20240103" + "/h1/" + "access" + ".log"
  {
    ExampleSettings();
  }
}
