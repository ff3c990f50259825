/** EnableChef, the handler run on each activation of the extension: it
    reports that enabling has started, bootstraps chef-client once per machine,
    installs and enables the chef service, starts the log collector after a
    fresh bootstrap when extended logs are on, and reports the outcome.

    The outside world is seen through the calls the handler makes, recorded in
    order in `calls`; what those calls return (a pid, a service exit status,
    whether the rendered configuration already exists, the current time) is
    passed in as a parameter. */
module Enable {
  import opened Wrappers
  import opened Strings
  import opened ShellWords
  import opened Heartbeat
  import opened Commands

  /** A call the handler makes to the outside. */
  datatype Call =
    | HeartBeat(report: Report)         // report_heart_beat_to_azure
    | Status(status: StatusReport)      // report_status_to_azure
    | Spawn(command: string, pid: nat)  // Process.spawn, which answered `pid`
    | Detach(pid: nat)                  // Process.detach

  /** How run ends: with an exit code, or by raising a configuration error. */
  datatype RunOutcome = Exit(code: int) | ConfigurationError(message: string)

  const SettingsMissing := "Configuration error. Azure chef extension Settings file missing."

  /** What the handler reads from its environment and settings, fixed for one
      activation. `logLocation` is the chef configuration's log location; a
      directory that Ruby would render from nil is the empty string. */
  datatype Settings = Settings(
    chefExtensionRoot: string,
    bootstrapDirectory: string,
    environment: string,
    azurePluginLogLocation: string,
    azureStatusFile: string,
    logLocation: Option<string>,
    extendedLogs: string,
    windows: bool)

  predicate ExtendedLogs(s: Settings) {
    s.extendedLogs == "true"
  }

  /** The command of the bootstrap run under settings `s`. */
  function BootstrapCommand(s: Settings): string {
    ChefClientCommand(s.bootstrapDirectory, s.environment, s.azurePluginLogLocation,
                      if ExtendedLogs(s) then Some(SuccessMarker(s.windows)) else None)
  }

  /** The command line of the log collector after a fresh bootstrap run with
      child `pid` started at `now`, under extended logs. */
  function CollectorCommand(s: Settings, pid: nat, now: string): string {
    FetchLogsCommand(s.chefExtensionRoot, Some(pid), Some(now),
                     ClientLogPath(s.logLocation, s.azurePluginLogLocation), s.azureStatusFile,
                     s.windows, Some(SuccessMarker(s.windows)))
  }

  /** The calls of run once the settings are found: the first heartbeat, the
      bootstrap run unless the rendered configuration exists, the two service
      steps, the log collector when `fetch` names its command, and the final
      heartbeat for `exitCode`. */
  function RunCalls(s: Settings, chefClientError: Option<string>, configExists: bool, pid: nat,
                    installCode: int, enableCode: int, exitCode: int,
                    fetch: Option<string>, collectorPid: nat): seq<Call>
  {
    [HeartBeat(FirstReport())]
    + (if configExists then [] else [Spawn(BootstrapCommand(s), pid), Detach(pid)])
    + [Status(ServiceStatus(InstallService, installCode)), Status(ServiceStatus(EnableService, enableCode))]
    + (if fetch.Some? then [Spawn(fetch.value, collectorPid), Detach(collectorPid)] else [])
    + [HeartBeat(FinalReport(exitCode, chefClientError))]
  }

  /** A run makes four calls, two more for a bootstrap and two more for the
      log collector; it opens with the first heartbeat and closes with the
      final one. */
  lemma RunCallsEnds(s: Settings, chefClientError: Option<string>, configExists: bool, pid: nat,
                     installCode: int, enableCode: int, exitCode: int,
                     fetch: Option<string>, collectorPid: nat)
    ensures var calls := RunCalls(s, chefClientError, configExists, pid, installCode, enableCode,
                                  exitCode, fetch, collectorPid);
            && |calls| == 4 + (if configExists then 0 else 2) + (if fetch.Some? then 2 else 0)
            && calls[0] == HeartBeat(FirstReport())
            && calls[|calls| - 1] == HeartBeat(FinalReport(exitCode, chefClientError))
  {
  }

  lemma AppendAssoc<T>(xs: seq<T>, a: seq<T>, b: seq<T>, c: seq<T>, d: seq<T>, e: seq<T>)
    ensures xs + (a + b + c + d + e) == xs + a + b + c + d + e
  {
  }

  class EnableChef {
    const settings: Settings
    var childPid: Option<nat>
    var chefClientSuccessFile: Option<string>
    var chefClientRunStartTime: Option<string>
    var exitCode: int
    var chefClientError: Option<string>
    var calls: seq<Call>

    /** The success marker and the start time are recorded together, only with
        extended logs and only once a bootstrap run has been spawned. */
    ghost predicate Valid()
      reads this
    {
      && (exitCode == 0 || exitCode == 1)
      && (chefClientSuccessFile.Some? <==> chefClientRunStartTime.Some?)
      && (chefClientSuccessFile.Some? ==>
            ExtendedLogs(settings) && childPid.Some?
            && chefClientSuccessFile.value == SuccessMarker(settings.windows))
    }

    constructor (settings: Settings, chefClientError: Option<string>)
      ensures Valid()
      ensures this.settings == settings && this.chefClientError == chefClientError
      ensures childPid == None && chefClientSuccessFile == None && chefClientRunStartTime == None
      ensures exitCode == 0 && calls == []
    {
      this.settings := settings;
      this.chefClientError := chefClientError;
      childPid := None;
      chefClientSuccessFile := None;
      chefClientRunStartTime := None;
      exitCode := 0;
      calls := [];
    }

    /** chef_client_log_path. */
    function ChefClientLogPath(): string {
      ClientLogPath(settings.logLocation, settings.azurePluginLogLocation)
    }

    /** The log collector's command line for the current state: once a
        bootstrap run has recorded its marker, the collector is handed that
        run's pid, start time and marker. */
    function FetchCommand(): (cmd: string)
      reads this`childPid, this`chefClientRunStartTime, this`chefClientSuccessFile
      ensures childPid.Some? && chefClientRunStartTime.Some?
              && chefClientSuccessFile == Some(SuccessMarker(settings.windows))
              ==> cmd == CollectorCommand(settings, childPid.value, chefClientRunStartTime.value)
    {
      FetchLogsCommand(settings.chefExtensionRoot, childPid, chefClientRunStartTime,
                       ChefClientLogPath(), settings.azureStatusFile, settings.windows,
                       chefClientSuccessFile)
    }

    /** configure_chef_only_once. When the rendered configuration already exists
        this is a later activation and nothing happens; otherwise chef-client is
        spawned once and detached, its pid recorded, and with extended logs the
        success marker and the start time `now` recorded too. */
    method ConfigureChefOnlyOnce(configExists: bool, pid: nat, now: string)
      requires Valid()
      modifies this
      ensures Valid()
      ensures configExists ==> unchanged(this)
      ensures !configExists ==>
                && childPid == Some(pid)
                && calls == old(calls) + [Spawn(BootstrapCommand(settings), pid), Detach(pid)]
                && chefClientSuccessFile == (if ExtendedLogs(settings) then Some(SuccessMarker(settings.windows)) else None)
                && chefClientRunStartTime == (if ExtendedLogs(settings) then Some(now) else None)
                && exitCode == old(exitCode) && chefClientError == old(chefClientError)
    {
      if configExists {
        return;
      }
      var command := BootstrapCommand(settings);
      calls := calls + [Spawn(command, pid)];
      childPid := Some(pid);
      calls := calls + [Detach(pid)];
      if ExtendedLogs(settings) {
        chefClientSuccessFile := Some(SuccessMarker(settings.windows));
        chefClientRunStartTime := Some(now);
      }
    }

    /** install_chef_service: reports how the installation went; a failure sets
        the exit code to 1. */
    method InstallChefService(code: int)
      requires Valid()
      modifies this`calls, this`exitCode
      ensures Valid()
      ensures calls == old(calls) + [Status(ServiceStatus(InstallService, code))]
      ensures exitCode == if code == 0 then old(exitCode) else 1
    {
      calls := calls + [Status(ServiceStatus(InstallService, code))];
      if code != 0 {
        exitCode := 1;
      }
    }

    /** enable_chef_service: reports how enabling went; a failure sets the exit
        code to 1. */
    method EnableChefService(code: int)
      requires Valid()
      modifies this`calls, this`exitCode
      ensures Valid()
      ensures calls == old(calls) + [Status(ServiceStatus(EnableService, code))]
      ensures exitCode == if code == 0 then old(exitCode) else 1
    {
      calls := calls + [Status(ServiceStatus(EnableService, code))];
      if code != 0 {
        exitCode := 1;
      }
    }

    /** enable_chef: bootstrap once, then install and enable the service; both
        service steps are attempted whatever the first one answered. */
    method EnableChefSteps(configExists: bool, pid: nat, now: string, installCode: int, enableCode: int)
      requires Valid()
      modifies this
      ensures Valid()
      ensures childPid == (if configExists then old(childPid) else Some(pid))
      ensures calls == old(calls)
                     + (if configExists then [] else [Spawn(BootstrapCommand(settings), pid), Detach(pid)])
                     + [Status(ServiceStatus(InstallService, installCode)), Status(ServiceStatus(EnableService, enableCode))]
      ensures exitCode == if installCode == 0 && enableCode == 0 then old(exitCode) else 1
      ensures configExists ==>
                chefClientSuccessFile == old(chefClientSuccessFile)
                && chefClientRunStartTime == old(chefClientRunStartTime)
      ensures !configExists ==>
                chefClientSuccessFile == (if ExtendedLogs(settings) then Some(SuccessMarker(settings.windows)) else None)
                && chefClientRunStartTime == (if ExtendedLogs(settings) then Some(now) else None)
      ensures chefClientError == old(chefClientError)
    {
      ConfigureChefOnlyOnce(configExists, pid, now);
      InstallChefService(installCode);
      EnableChefService(enableCode);
    }

    /** fetch_chef_client_logs: spawns the log collector and detaches it. */
    method FetchChefClientLogs(collectorPid: nat)
      requires Valid()
      modifies this`calls
      ensures Valid()
      ensures calls == old(calls) + [Spawn(FetchCommand(), collectorPid), Detach(collectorPid)]
    {
      calls := calls + [Spawn(FetchCommand(), collectorPid)];
      calls := calls + [Detach(collectorPid)];
    }

    /** run: the whole activation. Without a settings file it reports the error
        and raises before any heartbeat. Otherwise it makes the calls of
        RunCalls, fetching the logs exactly when extended logs are on and a
        child pid is known, and returns the exit code, which is 0 only when it
        was 0 and both service steps succeeded. */
    method Run(settingsFound: bool, configExists: bool, pid: nat, now: string,
               installCode: int, enableCode: int, collectorPid: nat) returns (r: RunOutcome)
      requires Valid()
      modifies this
      ensures Valid()
      ensures chefClientError == old(chefClientError)
      ensures !settingsFound ==>
                && r == ConfigurationError(SettingsMissing)
                && calls == old(calls) + [Status(StatusReport(SettingsMissing, "error"))]
                && childPid == old(childPid) && exitCode == old(exitCode)
                && chefClientSuccessFile == old(chefClientSuccessFile)
                && chefClientRunStartTime == old(chefClientRunStartTime)
      ensures settingsFound ==>
                && r == Exit(exitCode)
                && exitCode == (if old(exitCode) == 0 && installCode == 0 && enableCode == 0 then 0 else 1)
                && childPid == (if configExists then old(childPid) else Some(pid))
                && (configExists ==>
                      chefClientSuccessFile == old(chefClientSuccessFile)
                      && chefClientRunStartTime == old(chefClientRunStartTime))
                && (!configExists ==>
                      chefClientSuccessFile == (if ExtendedLogs(settings) then Some(SuccessMarker(settings.windows)) else None)
                      && chefClientRunStartTime == (if ExtendedLogs(settings) then Some(now) else None))
                && calls == old(calls)
                          + RunCalls(settings, chefClientError, configExists, pid, installCode, enableCode, exitCode,
                                     if ExtendedLogs(settings) && childPid.Some? then Some(FetchCommand()) else None,
                                     collectorPid)
    {
      if !settingsFound {
        calls := calls + [Status(StatusReport(SettingsMissing, "error"))];
        return ConfigurationError(SettingsMissing);
      }
      ghost var before := calls;
      calls := calls + [HeartBeat(FirstReport())];
      EnableChefSteps(configExists, pid, now, installCode, enableCode);
      ghost var steps := calls;
      ghost var fetch := if ExtendedLogs(settings) && childPid.Some? then Some(FetchCommand()) else None;
      if ExtendedLogs(settings) && childPid.Some? {
        FetchChefClientLogs(collectorPid);
      } else {
        assert calls == steps + [];
      }
      ghost var fetched := calls;
      assert fetched == steps + (if fetch.Some? then [Spawn(fetch.value, collectorPid), Detach(collectorPid)] else []);
      calls := calls + [HeartBeat(FinalReport(exitCode, chefClientError))];
      r := Exit(exitCode);
      AppendAssoc(before, [HeartBeat(FirstReport())],
                  if configExists then [] else [Spawn(BootstrapCommand(settings), pid), Detach(pid)],
                  [Status(ServiceStatus(InstallService, installCode)), Status(ServiceStatus(EnableService, enableCode))],
                  if fetch.Some? then [Spawn(fetch.value, collectorPid), Detach(collectorPid)] else [],
                  [HeartBeat(FinalReport(exitCode, chefClientError))]);
    }
  }

  /** One activation of the extension, from a fresh handler to its outcome,
      with the calls it made: on a fresh bootstrap under extended logs the log
      collector is handed that run's pid, start time and success marker. */
  method Activate(s: Settings, chefClientError: Option<string>, settingsFound: bool,
                  configExists: bool, pid: nat, now: string, installCode: int, enableCode: int,
                  collectorPid: nat) returns (outcome: RunOutcome, trace: seq<Call>)
    ensures !settingsFound ==>
              outcome == ConfigurationError(SettingsMissing)
              && trace == [Status(StatusReport(SettingsMissing, "error"))]
    ensures settingsFound ==>
              var code := if installCode == 0 && enableCode == 0 then 0 else 1;
              && outcome == Exit(code)
              && trace == RunCalls(s, chefClientError, configExists, pid, installCode, enableCode, code,
                                   if ExtendedLogs(s) && !configExists then Some(CollectorCommand(s, pid, now)) else None,
                                   collectorPid)
  {
    var handler := new EnableChef(s, chefClientError);
    outcome := handler.Run(settingsFound, configExists, pid, now, installCode, enableCode, collectorPid);
    trace := handler.calls;
    if settingsFound {
      assert handler.childPid.Some? == !configExists;
      if ExtendedLogs(s) && !configExists {
        assert handler.FetchCommand() == CollectorCommand(s, pid, now);
      }
      assert trace == [] + RunCalls(s, chefClientError, configExists, pid, installCode, enableCode, handler.exitCode,
                                    if ExtendedLogs(s) && handler.childPid.Some? then Some(handler.FetchCommand()) else None,
                                    collectorPid);
    }
  }

  // ---- what a run spawns and reports

  /** The commands spawned among `calls`, in order. */
  function Spawned(calls: seq<Call>): seq<string> {
    if calls == [] then []
    else (if calls[0].Spawn? then [calls[0].command] else []) + Spawned(calls[1..])
  }

  /** The heartbeats among `calls`, in order. */
  function Reports(calls: seq<Call>): seq<Report> {
    if calls == [] then []
    else (if calls[0].HeartBeat? then [calls[0].report] else []) + Reports(calls[1..])
  }

  /** A single call spawns its command when it is a spawn, and reports its
      heartbeat when it is one. */
  lemma SpawnedOne(c: Call)
    ensures Spawned([c]) == if c.Spawn? then [c.command] else []
    ensures Reports([c]) == if c.HeartBeat? then [c.report] else []
  {
    assert [c][1..] == [];
  }

  lemma {:induction false} SpawnedAppend(xs: seq<Call>, ys: seq<Call>)
    ensures Spawned(xs + ys) == Spawned(xs) + Spawned(ys)
    decreases |xs|
  {
    if xs == [] {
      assert xs + ys == ys;
    } else {
      assert (xs + ys)[0] == xs[0] && (xs + ys)[1..] == xs[1..] + ys;
      SpawnedAppend(xs[1..], ys);
    }
  }

  lemma {:induction false} ReportsAppend(xs: seq<Call>, ys: seq<Call>)
    ensures Reports(xs + ys) == Reports(xs) + Reports(ys)
    decreases |xs|
  {
    if xs == [] {
      assert xs + ys == ys;
    } else {
      assert (xs + ys)[0] == xs[0] && (xs + ys)[1..] == xs[1..] + ys;
      ReportsAppend(xs[1..], ys);
    }
  }

  /** The spawns and heartbeats of a sequence of calls shaped like a run,
      with the commands and reports left abstract. */
  lemma TraceShape(first: Report, boot: string, pid: nat, install: StatusReport, enable: StatusReport,
                   fetch: Option<string>, collectorPid: nat, last: Report, configExists: bool)
    ensures var trace := [HeartBeat(first)]
                         + (if configExists then [] else [Spawn(boot, pid), Detach(pid)])
                         + [Status(install), Status(enable)]
                         + (if fetch.Some? then [Spawn(fetch.value, collectorPid), Detach(collectorPid)] else [])
                         + [HeartBeat(last)];
            && Spawned(trace) == (if configExists then [] else [boot]) + (if fetch.Some? then [fetch.value] else [])
            && Reports(trace) == [first, last]
  {
    var a := [HeartBeat(first)];
    var b := if configExists then [] else [Spawn(boot, pid), Detach(pid)];
    var c := [Status(install), Status(enable)];
    var d := if fetch.Some? then [Spawn(fetch.value, collectorPid), Detach(collectorPid)] else [];
    var e := [HeartBeat(last)];
    AppendFive(a, b, c, d, e);
    SpawnedOne(HeartBeat(first));
    SpawnedOne(HeartBeat(last));
    TwoCalls(Spawn(boot, pid), Detach(pid));
    TwoCalls(Status(install), Status(enable));
    if fetch.Some? {
      TwoCalls(Spawn(fetch.value, collectorPid), Detach(collectorPid));
    }
  }

  /** Spawns and heartbeats distribute over a run's five pieces. */
  lemma AppendFive(a: seq<Call>, b: seq<Call>, c: seq<Call>, d: seq<Call>, e: seq<Call>)
    ensures Spawned(a + b + c + d + e) == Spawned(a) + Spawned(b) + Spawned(c) + Spawned(d) + Spawned(e)
    ensures Reports(a + b + c + d + e) == Reports(a) + Reports(b) + Reports(c) + Reports(d) + Reports(e)
  {
    SpawnedAppend(a + b + c + d, e);
    SpawnedAppend(a + b + c, d);
    SpawnedAppend(a + b, c);
    SpawnedAppend(a, b);
    ReportsAppend(a + b + c + d, e);
    ReportsAppend(a + b + c, d);
    ReportsAppend(a + b, c);
    ReportsAppend(a, b);
  }

  /** The spawns and heartbeats of two calls in a row. */
  lemma TwoCalls(x: Call, y: Call)
    ensures Spawned([x, y]) == (if x.Spawn? then [x.command] else []) + (if y.Spawn? then [y.command] else [])
    ensures Reports([x, y]) == (if x.HeartBeat? then [x.report] else []) + (if y.HeartBeat? then [y.report] else [])
  {
    assert [x, y] == [x] + [y];
    SpawnedOne(x);
    SpawnedOne(y);
    SpawnedAppend([x], [y]);
    ReportsAppend([x], [y]);
  }

  /** A run spawns the bootstrap run only when the rendered configuration is
      absent, so a later activation spawns nothing, and then the log collector
      when it fetches the logs; nothing else is spawned. */
  lemma RunSpawns(s: Settings, chefClientError: Option<string>, configExists: bool, pid: nat,
                  installCode: int, enableCode: int, exitCode: int, fetch: Option<string>, collectorPid: nat)
    ensures Spawned(RunCalls(s, chefClientError, configExists, pid, installCode, enableCode, exitCode, fetch, collectorPid))
         == (if configExists then [] else [BootstrapCommand(s)]) + (if fetch.Some? then [fetch.value] else [])
  {
    TraceShape(FirstReport(), BootstrapCommand(s), pid, ServiceStatus(InstallService, installCode), ServiceStatus(EnableService, enableCode),
               fetch, collectorPid, FinalReport(exitCode, chefClientError), configExists);
  }

  /** A run sends exactly two heartbeats: "Enabling chef-service..." while not
      ready, then the final report for its exit code and client-run error. */
  lemma RunHeartbeats(s: Settings, chefClientError: Option<string>, configExists: bool, pid: nat,
                      installCode: int, enableCode: int, exitCode: int, fetch: Option<string>, collectorPid: nat)
    ensures Reports(RunCalls(s, chefClientError, configExists, pid, installCode, enableCode, exitCode, fetch, collectorPid))
         == [FirstReport(), FinalReport(exitCode, chefClientError)]
  {
    TraceShape(FirstReport(), BootstrapCommand(s), pid, ServiceStatus(InstallService, installCode), ServiceStatus(EnableService, enableCode),
               fetch, collectorPid, FinalReport(exitCode, chefClientError), configExists);
  }

  // ---- the two command lines under the handler's settings

  lemma SuccessMarkerPlain(windows: bool)
    ensures Plain(SuccessMarker(windows)) && SuccessMarker(windows) != ""
  {
  }

  /** The bootstrap run reads the client configuration and first-boot
      attributes from the bootstrap directory, runs once in the configured
      environment, logs to the extension's log directory and, with extended
      logs, touches the platform's success marker when it is done. */
  lemma BootstrapCommandWords(s: Settings)
    requires Plain(s.bootstrapDirectory) && Plain(s.environment) && s.environment != ""
    requires Plain(s.azurePluginLogLocation)
    ensures Words(BootstrapCommand(s))
         == ["chef-client", "-c", s.bootstrapDirectory + "/client.rb",
             "-j", s.bootstrapDirectory + "/first-boot.json", "-E", s.environment,
             "-L", s.azurePluginLogLocation + "/chef-client.log", "--once"]
            + (if ExtendedLogs(s) then ["&&", "touch", SuccessMarker(s.windows)] else [])
  {
    SuccessMarkerPlain(s.windows);
    ChefClientCommandWords(s.bootstrapDirectory, s.environment, s.azurePluginLogLocation,
                           if ExtendedLogs(s) then Some(SuccessMarker(s.windows)) else None);
  }

  /** The log collector is handed the bootstrap run's pid and its start time as
      two words of their own, then the client log, the status file, chef's
      configuration directory and the success marker. */
  lemma CollectorCommandWords(s: Settings, pid: nat, now: string)
    requires Plain(s.chefExtensionRoot) && '"' !in now
    requires Plain(ClientLogPath(s.logLocation, s.azurePluginLogLocation))
    requires ClientLogPath(s.logLocation, s.azurePluginLogLocation) != ""
    requires Plain(s.azureStatusFile) && s.azureStatusFile != ""
    ensures Words(CollectorCommand(s, pid, now))
         == ["ruby", s.chefExtensionRoot + "/bin/chef_client_logs.rb", NatToString(pid), now,
             ClientLogPath(s.logLocation, s.azurePluginLogLocation), s.azureStatusFile,
             ConfigDir(s.windows), SuccessMarker(s.windows)]
  {
    SuccessMarkerPlain(s.windows);
    FetchLogsCommandWords(s.chefExtensionRoot, pid, now, ClientLogPath(s.logLocation, s.azurePluginLogLocation),
                          s.azureStatusFile, s.windows, SuccessMarker(s.windows));
  }
}
