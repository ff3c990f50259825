/** The two command lines the handler spawns: the one-time chef-client
    bootstrap run, and the log collector that follows it, each with the word
    vector a shell reads from it. */
module Commands {
  import opened Wrappers
  import opened Strings
  import opened ShellWords

  /** The file the bootstrap run touches when it completes. */
  function SuccessMarker(windows: bool): string {
    if windows then "c:\\chef_client_success" else "/tmp/chef_client_success"
  }

  /** chef-client's default configuration directory on the platform. */
  function ConfigDir(windows: bool): string {
    if windows then "c:/chef" else "/etc/chef"
  }

  /** chef_client_log_path: the log location from the chef configuration when it
      has one, otherwise chef-client.log in the extension's log directory. */
  function ClientLogPath(logLocation: Option<string>, pluginLogDir: string): (path: string)
    ensures logLocation.Some? ==> path == logLocation.value
    ensures logLocation.None? ==>
              |path| == |pluginLogDir| + 16 && path[..|pluginLogDir|] == pluginLogDir
              && path[|pluginLogDir|..] == "/chef-client.log"
  {
    if logLocation.Some? then logLocation.value else pluginLogDir + "/chef-client.log"
  }

  /** The bootstrap command: one chef-client run against the rendered client.rb
      and first-boot.json; with a success marker, the marker is touched once the
      run has finished. */
  function ChefClientCommand(dir: string, environment: string, logDir: string, marker: Option<string>): (cmd: string)
    ensures cmd == "chef-client -c " + dir + "/client.rb" + " -j " + dir + "/first-boot.json" + " -E " + environment
                   + " -L " + logDir + "/chef-client.log" + " --once " + TouchSuffix(marker)
  {
    var clientRb, firstBoot, logFile := dir + "/client.rb", dir + "/first-boot.json", logDir + "/chef-client.log";
    "chef-client -c " + (clientRb + (" -j " + (firstBoot + (" -E " + (environment + (" -L " + (logFile
    + (" --once " + TouchSuffix(marker)))))))))
  }

  /** Ruby's "#{x}" of a value that may be nil: nil renders as nothing. */
  function Show(x: Option<string>): string {
    x.GetOr("")
  }

  function ShowPid(pid: Option<nat>): string {
    if pid.Some? then NatToString(pid.value) else ""
  }

  /** The log collector: the bootstrap run's pid, its quoted start time, the
      client log, the status file, the chef configuration directory and the
      success marker, in that order. */
  function FetchLogsCommand(extensionRoot: string, pid: Option<nat>, startTime: Option<string>,
                            logPath: string, statusFile: string, windows: bool,
                            marker: Option<string>): (cmd: string)
    ensures cmd == "ruby " + extensionRoot + "/bin/chef_client_logs.rb" + " " + ShowPid(pid) + " \"" + Show(startTime)
                   + "\" " + logPath + " " + statusFile + " " + ConfigDir(windows) + " " + Show(marker)
  {
    var script := extensionRoot + "/bin/chef_client_logs.rb";
    Reassociate14("ruby ", extensionRoot, "/bin/chef_client_logs.rb", " ", ShowPid(pid), " \"", Show(startTime),
                  "\" ", logPath, " ", statusFile, " ", ConfigDir(windows), " " + Show(marker));
    "ruby " + (script + (" " + (ShowPid(pid) + (" \"" + (Show(startTime) + ("\" " + (logPath
    + (" " + (statusFile + (" " + (ConfigDir(windows) + (" " + Show(marker)))))))))))))
  }

  /** Writing a command line left to right or nested to the right is the
      same string. */
  lemma Reassociate14(a: string, b: string, c: string, d: string, e: string, f: string, g: string,
                      h: string, i: string, j: string, k: string, l: string, m: string, n: string)
    ensures a + b + c + d + e + f + g + h + i + j + k + l + m + n
         == a + ((b + c) + (d + (e + (f + (g + (h + (i + (j + (k + (l + (m + n)))))))))))
  {
  }

  // ---- properties

  lemma PlainAppend(a: string, b: string)
    requires Plain(a) && Plain(b)
    ensures Plain(a + b)
  {
    forall i | 0 <= i < |a + b| ensures (a + b)[i] != ' ' && (a + b)[i] != '"' {
      if i >= |a| { assert (a + b)[i] == b[i - |a|]; }
    }
  }

  lemma NumeralPlain(n: nat)
    ensures Plain(NatToString(n)) && NatToString(n) != ""
  {
    var s := NatToString(n);
    forall i | 0 <= i < |s| ensures s[i] != ' ' && s[i] != '"' {
      assert IsDigit(s[i]);
    }
  }

  /** A value, then a literal flag between spaces, then the rest, reads as the
      value's word, the flag's word and the words of the rest. */
  lemma ValueFlag(x: string, flag: string, w: string, rest: string)
    requires Plain(x) && x != "" && Plain(w) && w != ""
    requires flag == " " + w + " "
    ensures Words(x + (flag + rest)) == [x, w] + Words(rest)
  {
    assert x + (flag + rest) == x + " " + (w + " " + rest);
    WordsPlainSpace(x, w + " " + rest);
    WordsPlainSpace(w, rest);
  }

  /** What follows `--once`: nothing, or `&& touch <marker>`. */
  function TouchSuffix(marker: Option<string>): string {
    if marker.Some? then " && touch " + marker.value else ""
  }

  lemma TouchSuffixWords(marker: Option<string>)
    requires marker.Some? ==> Plain(marker.value) && marker.value != ""
    ensures Words(TouchSuffix(marker)) == if marker.Some? then ["&&", "touch", marker.value] else []
  {
    if marker.Some? {
      var m := marker.value;
      assert TouchSuffix(marker) == " " + ("&&" + " " + ("touch" + " " + m));
      WordsSpace("&&" + " " + ("touch" + " " + m));
      WordsPlainSpace("&&", "touch" + " " + m);
      WordsPlainSpace("touch", m);
      WordsPlain(m);
    }
  }

  lemma FlagWords(clientRb: string, firstBoot: string, environment: string, logFile: string, tail: string)
    requires Plain(clientRb) && clientRb != "" && Plain(firstBoot) && firstBoot != ""
    requires Plain(environment) && environment != "" && Plain(logFile) && logFile != ""
    ensures Words(clientRb + (" -j " + (firstBoot + (" -E " + (environment + (" -L " + (logFile + (" --once " + tail))))))))
         == [clientRb, "-j", firstBoot, "-E", environment, "-L", logFile, "--once"] + Words(tail)
  {
    ValueFlag(logFile, " --once ", "--once", tail);
    ValueFlag(environment, " -L ", "-L", logFile + (" --once " + tail));
    ValueFlag(firstBoot, " -E ", "-E", environment + (" -L " + (logFile + (" --once " + tail))));
    ValueFlag(clientRb, " -j ", "-j", firstBoot + (" -E " + (environment + (" -L " + (logFile + (" --once " + tail))))));
  }

  /** The argument vector of the bootstrap command: chef-client with its client
      configuration, first-boot attributes, environment and log file, run once;
      with a marker, followed by `&& touch <marker>`. */
  lemma ChefClientCommandWords(dir: string, environment: string, logDir: string, marker: Option<string>)
    requires Plain(dir) && Plain(environment) && environment != "" && Plain(logDir)
    requires marker.Some? ==> Plain(marker.value) && marker.value != ""
    ensures Words(ChefClientCommand(dir, environment, logDir, marker))
         == ["chef-client", "-c", dir + "/client.rb", "-j", dir + "/first-boot.json",
             "-E", environment, "-L", logDir + "/chef-client.log", "--once"]
            + (if marker.Some? then ["&&", "touch", marker.value] else [])
  {
    var clientRb, firstBoot, logFile := dir + "/client.rb", dir + "/first-boot.json", logDir + "/chef-client.log";
    PlainAppend(dir, "/client.rb");
    PlainAppend(dir, "/first-boot.json");
    PlainAppend(logDir, "/chef-client.log");
    var tail := TouchSuffix(marker);
    FlagWords(clientRb, firstBoot, environment, logFile, tail);
    TouchSuffixWords(marker);
    ChefClientHead(clientRb + (" -j " + (firstBoot + (" -E " + (environment + (" -L " + (logFile + (" --once " + tail))))))));
  }

  lemma ChefClientHead(rest: string)
    ensures Words("chef-client -c " + rest) == ["chef-client", "-c"] + Words(rest)
  {
    assert "chef-client -c " + rest == "chef-client" + " " + ("-c" + " " + rest);
    WordsPlainSpace("chef-client", "-c" + " " + rest);
    WordsPlainSpace("-c", rest);
  }

  lemma ConfigDirPlain(windows: bool)
    ensures Plain(ConfigDir(windows)) && ConfigDir(windows) != ""
  {
  }

  lemma LastWords(logPath: string, statusFile: string, configDir: string, marker: string)
    requires Plain(logPath) && logPath != "" && Plain(statusFile) && statusFile != ""
    requires Plain(configDir) && configDir != "" && Plain(marker) && marker != ""
    ensures Words(logPath + (" " + (statusFile + (" " + (configDir + (" " + marker))))))
         == [logPath, statusFile, configDir, marker]
  {
    WordsPlain(marker);
    assert configDir + (" " + marker) == configDir + " " + marker;
    WordsPlainSpace(configDir, marker);
    assert statusFile + (" " + (configDir + (" " + marker))) == statusFile + " " + (configDir + (" " + marker));
    WordsPlainSpace(statusFile, configDir + (" " + marker));
    assert logPath + (" " + (statusFile + (" " + (configDir + (" " + marker)))))
        == logPath + " " + (statusFile + (" " + (configDir + (" " + marker))));
    WordsPlainSpace(logPath, statusFile + (" " + (configDir + (" " + marker))));
  }

  /** The argument vector of the log collector: the script, then the bootstrap
      run's pid, its start time as one word however many spaces it holds, the
      client log, the status file, the configuration directory and the success
      marker. */
  lemma FetchLogsCommandWords(extensionRoot: string, pid: nat, startTime: string, logPath: string,
                              statusFile: string, windows: bool, marker: string)
    requires Plain(extensionRoot) && '"' !in startTime
    requires Plain(logPath) && logPath != "" && Plain(statusFile) && statusFile != ""
    requires Plain(marker) && marker != ""
    ensures Words(FetchLogsCommand(extensionRoot, Some(pid), Some(startTime), logPath, statusFile, windows, Some(marker)))
         == ["ruby", extensionRoot + "/bin/chef_client_logs.rb", NatToString(pid), startTime,
             logPath, statusFile, ConfigDir(windows), marker]
  {
    var script := extensionRoot + "/bin/chef_client_logs.rb";
    PlainAppend(extensionRoot, "/bin/chef_client_logs.rb");
    var n := NatToString(pid);
    NumeralPlain(pid);
    var dir := ConfigDir(windows);
    ConfigDirPlain(windows);
    var rest := logPath + (" " + (statusFile + (" " + (dir + (" " + marker)))));
    LastWords(logPath, statusFile, dir, marker);
    var quoted := " \"" + (startTime + ("\" " + rest));
    QuotedWords(startTime, rest);
    var tail := " " + (n + quoted);
    ValueWords(n, quoted);
    ValueWords(script, tail);
    WordsSpace(script + tail);
    RubyHead(script + tail);
  }

  /** A double-quoted span between a space and a space is one word. */
  lemma QuotedWords(t: string, rest: string)
    requires '"' !in t
    ensures Words(" \"" + (t + ("\" " + rest))) == [t] + Words(rest)
  {
    assert " \"" + (t + ("\" " + rest)) == " " + ("\"" + t + "\" " + rest);
    WordsSpace("\"" + t + "\" " + rest);
    WordsQuotedSpace(t, rest);
  }

  /** A plain word after a space, and before a space or the end, is the first
      word of what follows. */
  lemma ValueWords(w: string, rest: string)
    requires Plain(w) && w != ""
    requires rest == "" || rest[0] == ' '
    ensures Words(" " + (w + rest)) == [w] + Words(rest)
  {
    WordsSpace(w + rest);
    ScanPlain(w, rest, None);
    assert "" + w == w;
    if rest != "" {
      assert Scan(rest, Some(w), false) == [w] + Scan(rest[1..], None, false);
      assert Scan(rest, None, false) == [] + Scan(rest[1..], None, false);
    }
  }

  lemma RubyHead(rest: string)
    ensures Words("ruby " + rest) == ["ruby"] + Words(rest)
  {
    assert "ruby " + rest == "ruby" + " " + rest;
    WordsPlainSpace("ruby", rest);
  }

  // ---- the command lines the handler is expected to spawn

  /** chef_client_log_path with and without a configured log location. */
  lemma ClientLogPathExamples()
    ensures ClientLogPath(Some("./logs/chef-client.log"), "./logs_other") == "./logs/chef-client.log"
    ensures ClientLogPath(None, "./logs_other") == "./logs_other/chef-client.log"
  {
  }
}
