/** The log sink pool of logger.go: the `Logger` struct with its three maps,
    lookup-or-create (`Instance`, `initLogFile`, `newLogger`) and one pass of
    each background sweeper. The filesystem is a `Disk` (the directories and
    regular files that exist); whether a filesystem call fails is an input,
    `Faults`. Logger handles and release functions are opaque numbers. */
module LogPool {
  import opened Helpers
  import opened LogPaths

  /** Age in seconds after which the staleness sweeper drops a key. */
  const StaleSeconds := 86410

  /** lwriter: the logger handle, its release function and the file it writes. */
  datatype Writer = Writer(logger: nat, release: nat, file: string)

  /** fdGC: a release function waiting for the release sweeper. */
  datatype PendingRelease = PendingRelease(release: nat, expir: int)

  datatype FsError = MkdirFailed | CreateFailed | ChmodFailed | OpenFailed

  /** Which of the filesystem calls made by one `Instance` fail: os.MkdirAll,
      os.Create, File.Chmod and zap.Open. */
  datatype Faults = Faults(mkdir: bool, create: bool, chmod: bool, open: bool)

  /** The part of the filesystem the pool touches. */
  class Disk {
    var dirs: set<string>
    var files: set<string>

    constructor (dirs: set<string>, files: set<string>)
      ensures this.dirs == dirs && this.files == files
    {
      this.dirs := dirs;
      this.files := files;
    }
  }

  /** Whether initLogFile succeeds for `file` in directory `path`. */
  predicate FileReady(path: string, file: string, dirs: set<string>, files: set<string>, faults: Faults) {
    (path in dirs || !faults.mkdir) && (file in files || (!faults.create && !faults.chmod))
  }

  predicate Expired(registered: int, now: int) {
    registered < now - StaleSeconds
  }

  /** registerTime after one staleness pass at time `now`. */
  function SweptTimes(rt: map<string, int>, now: int): (r: map<string, int>)
    ensures r.Keys <= rt.Keys
    ensures forall k | k in r :: r[k] == rt[k] && !Expired(rt[k], now)
  {
    map k | k in rt && !Expired(rt[k], now) :: rt[k]
  }

  /** Whether the staleness pass drops the writer of `k`: it is registered and
      either too old or the file of the current bucket is gone. */
  predicate Evicted(k: string, rt: map<string, int>, now: int, s: Settings, bucket: string, files: set<string>) {
    k in rt && (Expired(rt[k], now) || LogFile(s, bucket, k) !in files)
  }

  /** writers after one staleness pass. */
  function SweptWriters(w: map<string, Writer>, rt: map<string, int>, now: int, s: Settings,
                        bucket: string, files: set<string>): (r: map<string, Writer>)
    ensures r.Keys <= w.Keys
    ensures forall k | k in r :: r[k] == w[k] && !Evicted(k, rt, now, s, bucket, files)
  {
    map k | k in w && !Evicted(k, rt, now, s, bucket, files) :: w[k]
  }

  /** The three outcomes of the staleness pass for one key. */
  lemma StalenessCases(w: map<string, Writer>, rt: map<string, int>, now: int, s: Settings,
                       bucket: string, files: set<string>, k: string)
    ensures k in rt && Expired(rt[k], now) ==>
      k !in SweptTimes(rt, now) && k !in SweptWriters(w, rt, now, s, bucket, files)
    ensures k in rt && !Expired(rt[k], now) && LogFile(s, bucket, k) !in files ==>
      k !in SweptWriters(w, rt, now, s, bucket, files) && k in SweptTimes(rt, now) && SweptTimes(rt, now)[k] == rt[k]
    ensures !Evicted(k, rt, now, s, bucket, files) ==>
      && (k in SweptTimes(rt, now) <==> k in rt)
      && (k in SweptWriters(w, rt, now, s, bucket, files) <==> k in w)
      && (k in w ==> SweptWriters(w, rt, now, s, bucket, files)[k] == w[k])
  {
  }

  /** Every writer keeps a registration time across a pass. */
  lemma SweptKeepsRegistration(w: map<string, Writer>, rt: map<string, int>, now: int, s: Settings,
                               bucket: string, files: set<string>)
    requires w.Keys <= rt.Keys
    ensures SweptWriters(w, rt, now, s, bucket, files).Keys <= SweptTimes(rt, now).Keys
  {
  }

  /** A second pass with the same clock and filesystem removes nothing more. */
  lemma SweepIdempotent(w: map<string, Writer>, rt: map<string, int>, now: int, s: Settings,
                        bucket: string, files: set<string>)
    ensures SweptTimes(SweptTimes(rt, now), now) == SweptTimes(rt, now)
    ensures SweptWriters(SweptWriters(w, rt, now, s, bucket, files), SweptTimes(rt, now), now, s, bucket, files)
         == SweptWriters(w, rt, now, s, bucket, files)
  {
  }

  /** The pool (LogPool) and the logging globals initialLog sets. */
  class Pool {
    var writers: map<string, Writer>
    var registerTime: map<string, int>
    var free: map<string, PendingRelease>
    var settings: Settings
    /** The next handle zap.Open would hand out; all live handles are below it. */
    var nextHandle: nat
    /** Every release function invoked so far, once per invocation. */
    ghost var released: multiset<PendingRelease>

    ghost predicate Valid()
      reads this
    {
      && writers.Keys <= registerTime.Keys
      && (forall k | k in writers :: writers[k].logger < nextHandle)
      && (forall k, j | k in writers && j in writers && k != j :: writers[k].logger != writers[j].logger)
    }

    /** The pool as the package init creates it. */
    constructor ()
      ensures Valid()
      ensures writers == map[] && registerTime == map[] && free == map[]
      ensures settings == InitialSettings && released == multiset{} && nextHandle == 0
    {
      writers := map[];
      registerTime := map[];
      free := map[];
      settings := InitialSettings;
      nextHandle := 0;
      released := multiset{};
    }

    /** initLogFile: make the bucket directory if it is missing, then reuse or
        create the key's file. */
    method InitLogFile(k: string, bucket: string, disk: Disk, faults: Faults) returns (r: Result<string, FsError>)
      modifies disk
      ensures var path, file := LogPath(settings, bucket), LogFile(settings, bucket, k);
        && (r.Ok? <==> FileReady(path, file, old(disk.dirs), old(disk.files), faults))
        && (r.Ok? ==> r.value == file && path in disk.dirs && file in disk.files)
        && (path in old(disk.dirs) && file in old(disk.files) ==> r == Ok(file) && unchanged(disk))
        && disk.dirs == old(disk.dirs) + (if faults.mkdir then {} else {path})
        && old(disk.files) <= disk.files <= old(disk.files) + {file}
        && (file in disk.files - old(disk.files) ==> r.Ok? || r == Err(ChmodFailed))
        && (r.Err? ==> path in old(disk.dirs) || !faults.mkdir || (r == Err(MkdirFailed) && unchanged(disk)))
    {
      var path := LogPath(settings, bucket);
      if path !in disk.dirs {
        if faults.mkdir {
          return Err(MkdirFailed);
        }
        disk.dirs := disk.dirs + {path};
      }
      var file := LogFile(settings, bucket, k);
      if file in disk.files {
        return Ok(file);
      }
      if faults.create {
        return Err(CreateFailed);
      }
      disk.files := disk.files + {file};
      if faults.chmod {
        return Err(ChmodFailed);
      }
      return Ok(file);
    }

    /** newLogger: open the file and hand out a new handle and its release function. */
    method NewLogger(file: string, openFails: bool) returns (r: Result<Writer, FsError>)
      modifies this`nextHandle
      ensures r.Err? <==> openFails
      ensures r.Err? ==> r.error == OpenFailed && nextHandle == old(nextHandle)
      ensures r.Ok? ==> r.value == Writer(old(nextHandle), old(nextHandle), file) && nextHandle == old(nextHandle) + 1
    {
      if openFails {
        return Err(OpenFailed);
      }
      r := Ok(Writer(nextHandle, nextHandle, file));
      nextHandle := nextHandle + 1;
    }

    /** Instance: lookup-or-create for key `k` at clock `now`, with `bucket`
        the current time formatted with the layout. A hit never looks at the
        bucket or the disk. */
    method Instance(k: string, now: int, bucket: string, disk: Disk, faults: Faults) returns (r: Result<nat, FsError>)
      requires Valid()
      modifies this, disk
      ensures Valid()
      ensures free == old(free) && settings == old(settings) && released == old(released)
      ensures k in old(writers) ==>
        && r == Ok(old(writers)[k].logger)
        && writers == old(writers) && registerTime == old(registerTime) && nextHandle == old(nextHandle)
        && unchanged(disk)
      ensures k !in old(writers) ==>
        (r.Ok? <==> FileReady(LogPath(settings, bucket), LogFile(settings, bucket, k), old(disk.dirs), old(disk.files), faults)
                    && !faults.open)
      ensures k !in old(writers) && r.Ok? ==>
        && writers == old(writers)[k := Writer(r.value, r.value, LogFile(settings, bucket, k))]
        && registerTime == old(registerTime)[k := now]
        && r.value == old(nextHandle) && nextHandle == old(nextHandle) + 1
        && (forall j | j in old(writers) :: old(writers)[j].logger != r.value)
        && LogFile(settings, bucket, k) in disk.files
      ensures old(disk.files) <= disk.files <= old(disk.files) + {LogFile(settings, bucket, k)}
      ensures old(disk.dirs) <= disk.dirs <= old(disk.dirs) + {LogPath(settings, bucket)}
      ensures r.Err? ==> writers == old(writers) && registerTime == old(registerTime)
    {
      if k in writers {
        return Ok(writers[k].logger);
      }
      var file := InitLogFile(k, bucket, disk, faults);
      if file.Err? {
        return Err(file.error);
      }
      var w := NewLogger(file.value, faults.open);
      if w.Err? {
        return Err(w.error);
      }
      writers := writers[k := w.value];
      registerTime := registerTime[k := now];
      return Ok(w.value.logger);
    }

    /** One pass of the release sweeper: invoke and drop every pending release. */
    method ReleasePass()
      modifies this`free, this`released
      ensures free == map[]
      ensures released == old(released) + ValuesBag(old(free))
    {
      var todo := free.Keys;
      while todo != {}
        invariant todo == free.Keys
        invariant released + ValuesBag(free) == old(released) + ValuesBag(old(free))
        decreases todo
      {
        var key :| key in todo;
        assert ValuesBag(free) == multiset{free[key]} + ValuesBag(free - {key}) by {
          ValuesBagRemove(free, key);
        }
        released := released + multiset{free[key]};
        free := free - {key};
        todo := todo - {key};
      }
      assert free == map[];
    }

    /** One pass of the staleness sweeper at clock `now`, with `bucket` the
        current time formatted with the layout. */
    method StalenessPass(now: int, bucket: string, disk: Disk)
      requires Valid()
      modifies this`writers, this`registerTime
      ensures Valid()
      ensures registerTime == SweptTimes(old(registerTime), now)
      ensures writers == SweptWriters(old(writers), old(registerTime), now, settings, bucket, disk.files)
    {
      ghost var rt0, w0 := registerTime, writers;
      var todo := registerTime.Keys;
      while todo != {}
        invariant todo <= rt0.Keys
        invariant registerTime.Keys <= rt0.Keys && writers.Keys <= w0.Keys
        invariant forall k | k in registerTime :: registerTime[k] == rt0[k]
        invariant forall k | k in writers :: writers[k] == w0[k]
        invariant forall k | k in rt0 ::
          k in registerTime <==> k in todo || !Expired(rt0[k], now)
        invariant forall k | k in w0 ::
          k in writers <==> k in todo || !Evicted(k, rt0, now, settings, bucket, disk.files)
        decreases todo
      {
        var key :| key in todo;
        var t := registerTime[key];
        if t < now - StaleSeconds {
          registerTime := registerTime - {key};
          writers := writers - {key};
        } else if LogFile(settings, bucket, key) !in disk.files {
          writers := writers - {key};
        }
        todo := todo - {key};
      }
      assert registerTime == SweptTimes(rt0, now);
      assert writers == SweptWriters(w0, rt0, now, settings, bucket, disk.files);
    }
  }
}
