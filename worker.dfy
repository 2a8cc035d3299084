/** The worker: its refresh interval, the configuration-reload gating of
    its main loop, one pass of that loop, and the unimplemented daemon
    mode. The list transforms it calls are those of the utility module. */
module Worker {
  import opened Wrappers
  import opened Records
  import Utils

  /** Seconds slept between two passes when no interval is given. */
  const DefaultRefreshTime := 5

  /** `datetime.utcfromtimestamp(0)`: timestamps are seconds since it. */
  const Epoch := 0

  const DaemonMessage := "Daemon behavior yet not implemented"

  /** What stops the worker: a configuration that fails to load, a pass that
      uses `slos` before any load bound it, or the daemon request. */
  datatype WorkerError = ConfigFailed(cause: ConfigError) | SlosUnbound | NotImplemented(message: string)

  /** The reload test of the loop: the file changed after the last read. */
  predicate ReloadDue(lastReadConfig: int, lastModifiedConfig: int)
  {
    lastReadConfig < lastModifiedConfig
  }

  class SloWorker {
    var refreshTime: int
    /** The two variables of the main loop: when the configuration was last
        read, and the objectives last read (None until the first load). */
    var lastReadConfig: int
    var slos: Option<seq<Slo>>

    /** Takes the given interval, or 5 when none is given. */
    constructor (refreshTime: Option<int>)
      ensures refreshTime.None? ==> this.refreshTime == DefaultRefreshTime
      ensures refreshTime.Some? ==> this.refreshTime == refreshTime.value
    {
      this.refreshTime := if refreshTime.None? then DefaultRefreshTime else refreshTime.value;
      lastReadConfig := Epoch;
      slos := None;
    }

    /** The set-up of `start` before its loop: the configuration counts as
        last read at the epoch, and no objectives are bound yet. */
    method Start()
      modifies this
      ensures refreshTime == old(refreshTime)
      ensures lastReadConfig == Epoch && slos == None
    {
      lastReadConfig := Epoch;
      slos := None;
    }

    /** The gating step of the loop. `lastModifiedConfig` is the file's
        modification time, `loaded` what reading the file gives now, and
        `now` the current time. The objectives are replaced, and the read
        time set to `now`, only when the file changed strictly after the last
        read and it loaded; a failed load changes nothing and is returned. */
    method ReloadIfChanged(lastModifiedConfig: int, loaded: Result<seq<Slo>, ConfigError>, now: int)
      returns (error: Option<ConfigError>)
      modifies this
      ensures refreshTime == old(refreshTime)
      ensures !ReloadDue(old(lastReadConfig), lastModifiedConfig) ==>
                error == None && slos == old(slos) && lastReadConfig == old(lastReadConfig)
      ensures ReloadDue(old(lastReadConfig), lastModifiedConfig) && loaded.Success? ==>
                error == None && slos == Some(loaded.value) && lastReadConfig == now
      ensures ReloadDue(old(lastReadConfig), lastModifiedConfig) && loaded.Failure? ==>
                error == Some(loaded.error) && slos == old(slos) && lastReadConfig == old(lastReadConfig)
    {
      error := None;
      if ReloadDue(lastReadConfig, lastModifiedConfig) {
        match loaded
        case Failure(e) =>
          error := Some(e);
        case Success(s) =>
          slos := Some(s);
          lastReadConfig := now;
      }
    }

    /** One pass of the loop: the gating step, then one request per
        configured url, in configuration order. */
    method Iterate(lastModifiedConfig: int, loaded: Result<seq<Slo>, ConfigError>, now: int,
                   fetch: (nat, string) -> Probe)
      returns (r: Result<seq<Response>, WorkerError>)
      modifies this
      ensures refreshTime == old(refreshTime)
      ensures !ReloadDue(old(lastReadConfig), lastModifiedConfig) ==>
                slos == old(slos) && lastReadConfig == old(lastReadConfig)
      ensures ReloadDue(old(lastReadConfig), lastModifiedConfig) && loaded.Success? ==>
                slos == Some(loaded.value) && lastReadConfig == now
      ensures ReloadDue(old(lastReadConfig), lastModifiedConfig) && loaded.Failure? ==>
                r == Failure(ConfigFailed(loaded.error)) &&
                slos == old(slos) && lastReadConfig == old(lastReadConfig)
      ensures r.Failure? && r.error != SlosUnbound ==>
                ReloadDue(old(lastReadConfig), lastModifiedConfig) && loaded.Failure?
      ensures r == Failure(SlosUnbound) <==>
                slos == None && !(ReloadDue(old(lastReadConfig), lastModifiedConfig) && loaded.Failure?)
      ensures r.Success? ==>
                slos.Some? && |r.value| == |slos.value| &&
                forall i :: 0 <= i < |r.value| ==>
                  r.value[i] == Response(slos.value[i].url, fetch(i, slos.value[i].url).status,
                                         fetch(i, slos.value[i].url).time)
    {
      var error := ReloadIfChanged(lastModifiedConfig, loaded, now);
      if error.Some? {
        return Failure(ConfigFailed(error.value));
      }
      if slos.None? {
        return Failure(SlosUnbound);
      }
      var urls := Utils.GetSloUrls(slos.value);
      var responses := Utils.DoRequests(urls, fetch);
      return Success(responses);
    }

    /** `daemonize`: always fails, daemon mode is not implemented. */
    method Daemonize() returns (pid: Result<int, WorkerError>)
      ensures pid == Failure(NotImplemented(DaemonMessage))
    {
      return Failure(NotImplemented(DaemonMessage));
    }
  }

  /** Two passes over an unchanged file: the first loads it because its
      modification time is after the epoch; the second, at any time `later`
      (left unconstrained), keeps the objectives of the first, thresholds
      included, whatever the file would now give, leaves the read time at
      the first load, and probes the same urls. */
  method ReloadOnlyOnChange(refreshTime: Option<int>, mtime: int, loadTime: int, later: int,
                            first: seq<Slo>, second: Result<seq<Slo>, ConfigError>,
                            fetch: (nat, string) -> Probe)
    returns (firstUrls: seq<string>, secondUrls: seq<string>, kept: Option<seq<Slo>>, lastRead: int)
    requires Epoch < mtime <= loadTime
    ensures firstUrls == secondUrls == Utils.GetSloUrls(first)
    ensures kept == Some(first) && lastRead == loadTime
  {
    var worker := new SloWorker(refreshTime);
    worker.Start();
    var r1 := worker.Iterate(mtime, Success(first), loadTime, fetch);
    assert worker.slos == Some(first);
    var r2 := worker.Iterate(mtime, second, later, fetch);
    assert worker.slos == Some(first);
    firstUrls := seq(|r1.value|, i requires 0 <= i < |r1.value| => r1.value[i].url);
    secondUrls := seq(|r2.value|, i requires 0 <= i < |r2.value| => r2.value[i].url);
    kept, lastRead := worker.slos, worker.lastReadConfig;
  }
}
