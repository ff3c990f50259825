# EnableChef, the enable handler of the Azure Chef extension

The enable handler runs each time the host activates the extension on a
virtual machine. It reports a "not ready" heartbeat, then bootstraps
chef-client. The bootstrap happens once per machine: a rendered client
configuration on disk means a later activation, which spawns nothing.
The handler then installs and enables the chef service, reporting each
step's status. With extended logs on and a bootstrap run spawned by this
activation, it starts a detached log collector. Last comes a final heartbeat
whose state and message follow the exit code. The bootstrap run list comes
from the settings as free text and is normalised into canonical
`recipe[...]`/`role[...]` items.

The behaviour is taken from the handler's RSpec suite
(`spec/unit/azure_enable_spec.rb`), whose exact-value expectations fix the
messages, the command lines and the field updates. The implementation file
is not part of this model. Where the suite is silent, the model makes two
choices:

- Run-list segments are separated by commas outside brackets, so that a
  comma inside an item's brackets stays in the item. Every input of the
  suite splits the same way under a plain comma split.
- A failed install or enable sets the exit code to 1. This is the exit
  code under which lines 85-112 expect the failure heartbeat.

Modules:

- `Wrappers` holds `Option`, which stands for a Ruby value that may be nil.
- `Strings` provides joining, and decimal rendering with its parse-back.
- `ShellWords` reads a command line into shell words: spaces separate words,
  and double quotes group them. The spawned command lines are stated both
  as strings and as these word vectors.
- `Heartbeat` holds the heartbeat and status reports with their exact texts.
- `Commands` holds the bootstrap command, the log collector command and
  `chef_client_log_path`.
- `Runlist` holds `escape_runlist`.
- `Enable` holds the `EnableChef` class. Its fields are those the handler
  updates: `@child_pid`, `@chef_client_success_file`,
  `@chef_client_run_start_time`, `@exit_code` and `@chef_client_error`.
  The calls whose arguments the suite fixes are appended to `calls`:
  heartbeats, status reports, spawns and detaches. What such a call
  answers is a method parameter: the pid of a spawn, a service exit status,
  whether the rendered configuration exists, the current time.

The test at lines 62-65 is titled "does not invoke fetch_chef_client_logs"
but expects the call. The model follows the expectation: with extended
logs on and a child pid known, the logs are fetched.

## Model

| member | source | states |
|---|---|---|
| Heartbeat.FirstReport | spec/unit/azure_enable_spec.rb:17 | the first heartbeat is NOTREADY with code 0 and the text "Enabling chef-service..." |
| Heartbeat.FinalReport | spec/unit/azure_enable_spec.rb:13-112 | the final heartbeat always has code 0. It is READY exactly when the exit code is 0, so the client-run error never changes the state. Its message is "chef-service is enabled." or "chef-service enable failed.", followed by " Chef client run failed with error- <err>" exactly when a non-empty error text was captured |
| Heartbeat.FinalMessage | spec/unit/azure_enable_spec.rb:25-35 | the final message starts with the outcome text for the exit code; it is that text alone when no error text was captured, and otherwise the rest is " Chef client run failed with error- " followed by the error text |
| Heartbeat.FinalMessageInjective | spec/unit/azure_enable_spec.rb:25-35 | equal final messages have the same outcome and the same client-run error text, so the text alone tells the host what happened |
| Heartbeat.ServiceStatus | spec/unit/azure_enable_spec.rb:132-158 | status 0 is reported as "success" with "chef-service installed" or "chef-service enabled"; any other status as "error" with "chef-service install failed - " or "chef-service enable failed - "; "success" exactly when the status is 0 |
| Heartbeat.ServiceStatusesDistinct | spec/unit/azure_enable_spec.rb:132-158 | two service reports are equal exactly when they are about the same step and both succeeded or both failed |
| Commands.ClientLogPath | spec/unit/azure_enable_spec.rb:287-317 | the configured log location when there is one, otherwise the plugin log directory followed by "/chef-client.log" |
| Commands.ClientLogPathExamples | spec/unit/azure_enable_spec.rb:287-317 | "./logs/chef-client.log" when configured; "./logs_other/chef-client.log" from "./logs_other" when not |
| Commands.TouchSuffixWords | spec/unit/azure_enable_spec.rb:248-264 | with a marker, the bootstrap command ends in the words "&&", "touch", marker; without one, it adds no word |
| Commands.ChefClientCommandWords | spec/unit/azure_enable_spec.rb:182-269 | the bootstrap command reads as chef-client -c <dir>/client.rb -j <dir>/first-boot.json -E <env> -L <log>/chef-client.log --once, then "&& touch <marker>" exactly when a marker is given |
| Commands.FetchLogsCommandWords | spec/unit/azure_enable_spec.rb:319-366 | the collector command reads as ruby <root>/bin/chef_client_logs.rb, then the pid in decimal and the start time as one unquoted word, then the client log, the status file, the platform configuration directory and the success marker |
| Strings.NatToString | spec/unit/azure_enable_spec.rb:336 | the pid is rendered as a non-empty run of decimal digits without a leading zero |
| Strings.ParseNatToString | spec/unit/azure_enable_spec.rb:336 | reading the rendered pid back gives the pid, so the collector receives the bootstrap run's process id intact |
| Enable.EnableChef.constructor | spec/unit/azure_enable_spec.rb:5-10 | a new handler has no child pid, no success marker and no start time; its exit code is 0 and it has made no call |
| Enable.EnableChef.ConfigureChefOnlyOnce | spec/unit/azure_enable_spec.rb:160-285 | with the rendered configuration present, nothing changes and nothing is spawned or detached. Otherwise the bootstrap command is spawned and its pid detached and recorded. The success marker and the start time are set exactly when extended logs are on, the marker being c:\chef_client_success on Windows and /tmp/chef_client_success elsewhere |
| Enable.EnableChef.InstallChefService | spec/unit/azure_enable_spec.rb:132-144 | reports the install status and sets the exit code to 1 on failure, leaving it as it was on success |
| Enable.EnableChef.EnableChefService | spec/unit/azure_enable_spec.rb:146-158 | reports the enable status and sets the exit code to 1 on failure, leaving it as it was on success |
| Enable.EnableChef.EnableChefSteps | spec/unit/azure_enable_spec.rb:123-130 | bootstraps once, then installs, then enables. Both service steps always run, and the exit code becomes 1 when either fails |
| Enable.EnableChef.FetchChefClientLogs | spec/unit/azure_enable_spec.rb:319-366 | spawns the log collector built from the handler's pid, start time, log path, status file, platform and marker, then detaches the collector's pid |
| Enable.EnableChef.FetchCommand | spec/unit/azure_enable_spec.rb:319-366 | once a bootstrap run has recorded its pid, start time and platform marker, the handler's collector command is the one built from exactly those |
| Enable.RunCallsEnds | spec/unit/azure_enable_spec.rb:12-114 | a run makes four calls, two more when it bootstraps and two more when it fetches the logs; it opens with the first heartbeat and closes with the final one |
| Enable.EnableChef.Run | spec/unit/azure_enable_spec.rb:12-114 | with settings: first heartbeat, bootstrap, install, enable, then the log fetch exactly when extended logs are on and a child pid is known, then the final heartbeat. It returns an exit code that is 0 only when no step failed. Without a settings file it reports the configuration error and raises, with no heartbeat and no other change. The handler invariant is kept |
| Enable.Activate | spec/unit/azure_enable_spec.rb:12-114 | one activation from a fresh handler. On a fresh bootstrap with extended logs, the collector is handed that run's pid, start time and marker. A later activation fetches nothing |
| Enable.RunSpawns | spec/unit/azure_enable_spec.rb:38-81 | a run spawns only the bootstrap command, and only without the rendered configuration, then only the collector, and only when it fetches |
| Enable.RunHeartbeats | spec/unit/azure_enable_spec.rb:15-112 | a run sends exactly two heartbeats, the not-ready one first and the final report last |
| Enable.BootstrapCommandWords | spec/unit/azure_enable_spec.rb:182-269 | under the handler's settings, the bootstrap command's words, with the touch of the platform marker exactly when extended logs are on |
| Enable.CollectorCommandWords | spec/unit/azure_enable_spec.rb:319-366 | under the handler's settings, the collector command's words after a fresh bootstrap |
| Runlist.TopComma | spec/unit/azure_enable_spec.rb:445-485 | the separator found is a comma of the input |
| Runlist.TopCommaPrefix | spec/unit/azure_enable_spec.rb:445-485 | before the separator found there is no other, and every bracket opened there is closed, so the separator lies outside all brackets |
| Runlist.TopCommaComplete | spec/unit/azure_enable_spec.rb:445-485 | every comma outside all brackets is found: the separator found is that comma or an earlier one |
| Runlist.UnbrokenExactly | spec/unit/azure_enable_spec.rb:445-485 | a segment holds no separator exactly when each of its commas lies inside brackets |
| Runlist.SplitTop | spec/unit/azure_enable_spec.rb:445-485 | the input splits into at least one segment |
| Runlist.SplitTopParts | spec/unit/azure_enable_spec.rb:445-485 | no segment holds a separator, and every segment but the last closes its brackets |
| Runlist.SplitTopJoinBack | spec/unit/azure_enable_spec.rb:445-485 | the segments, written with commas between them, give back the input, so splitting loses and reorders nothing |
| Runlist.StripQuotes | spec/unit/azure_enable_spec.rb:487-492 | a segment in double quotes loses exactly that pair of quotes; any other segment is kept as it is |
| Runlist.SplitTopAppend | spec/unit/azure_enable_spec.rb:445-485 | a comma after a segment that closes its brackets separates: the segments of the whole are those of the left part, then those of the right part |
| Runlist.SplitTopJoin | spec/unit/azure_enable_spec.rb:445-485 | segments with no top-level comma, all but the last closing their brackets, written with commas between them, split back into themselves |
| Runlist.Canonical | spec/unit/azure_enable_spec.rb:431-485 | every segment becomes a `recipe[...]` or `role[...]` item |
| Runlist.CanonicalFixed | spec/unit/azure_enable_spec.rb:431-471 | a segment is kept verbatim exactly when it is already such an item |
| Runlist.Wrapped | spec/unit/azure_enable_spec.rb:459-464 | any segment that is not already a recipe or role item is wrapped as recipe[segment] |
| Runlist.EscapeRunlist | spec/unit/azure_enable_spec.rb:430-492 | every output is a canonical item, and an empty run list gives no item |
| Runlist.EscapeSegment | spec/unit/azure_enable_spec.rb:430-492 | a segment with no separator gives no item when it is empty once unquoted, and otherwise exactly its unquoted text made canonical |
| Runlist.EscapeRunlistItems | spec/unit/azure_enable_spec.rb:430-492 | every output is a canonical item with no comma outside its brackets |
| Runlist.EscapeRunlistAppend | spec/unit/azure_enable_spec.rb:445-485 | order is preserved: the items of "a,b" are those of a, then those of b |
| Runlist.EscapeRunlistOfItems | spec/unit/azure_enable_spec.rb:445-457 | canonical items joined by commas are read back verbatim and in order |
| Runlist.EscapeRunlistIdempotent | spec/unit/azure_enable_spec.rb:430-492 | normalising the comma-joined output again gives the same list |
| Runlist.Pair | spec/unit/azure_enable_spec.rb:445-491 | two segments joined by a comma give the first one's item, then the second one's, each after unquoting |
| Runlist.QuotedItemThenBare | spec/unit/azure_enable_spec.rb:487-492 | quotes around each segment are removed before it is classified |
| Runlist.InnerComma | spec/unit/azure_enable_spec.rb:466-471 | a comma inside an item's brackets does not split the item |
| Runlist.ExampleRecipe | spec/unit/azure_enable_spec.rb:431-436 | "recipe[abc]" gives ["recipe[abc]"] |
| Runlist.ExampleRole | spec/unit/azure_enable_spec.rb:438-443 | "role[abc]" gives ["role[abc]"] |
| Runlist.ExampleTwoRecipes | spec/unit/azure_enable_spec.rb:445-450 | "recipe[cookbook1],recipe[cookbook2]" gives both items in order |
| Runlist.ExampleRecipeAndRole | spec/unit/azure_enable_spec.rb:452-457 | "recipe[cookbook1],role[rolename]" gives both items in order |
| Runlist.ExampleBareNames | spec/unit/azure_enable_spec.rb:459-464 | "cookbook1,cookbook2" gives ["recipe[cookbook1]", "recipe[cookbook2]"] |
| Runlist.ExampleQualifiedRecipe | spec/unit/azure_enable_spec.rb:466-471 | "recipe[cookbook::recipe]" is kept verbatim |
| Runlist.ExampleRecipeAndBareName | spec/unit/azure_enable_spec.rb:473-478 | "recipe[recipe1],recipe2" gives ["recipe[recipe1]", "recipe[recipe2]"] |
| Runlist.ExampleRoleAndBareName | spec/unit/azure_enable_spec.rb:480-485 | "role[rolename],recipe" gives ["role[rolename]", "recipe[recipe]"] |
| Runlist.ExampleQuoted | spec/unit/azure_enable_spec.rb:487-492 | "\"role[rolename]\",\"recipe\"" gives ["role[rolename]", "recipe[recipe]"] |

## Left out

- Process spawning and detaching are recorded calls. The spawn's pid is a
  parameter. The detached children run concurrently with the handler, and
  that concurrency is not modelled.
- The guard on the rendered configuration (`File.exists?`) is a boolean
  parameter. Writing the rendered files, `File.open` and removing a stale
  marker (`FileUtils.rm`) are not modelled.
- Template rendering (Erubis, the Knife bootstrap contexts) and the
  configuration record handed to them are library calls whose output the
  suite does not expose.
- The run list is normalised, but how it reaches the templates is not
  modelled.
- Validation-key, client-key and certificate decryption (OpenSSL, Base64,
  and the Windows certificate utility, lines 402-428) is foreign
  cryptography and external commands.
- `load_env`, `read_config` and `load_settings` (lines 116-121, 368-377)
  read JSON files. The values they read are the fields of `Settings`.
- Settings-file discovery (lines 379-394) is reduced to a boolean
  `settingsFound`. Its status report is assumed to carry the raised
  message with status "error"; the suite checks only that some status is
  reported.
- `Time.now` is a string parameter `now`. The suite only requires it to be
  set.
- `ENV['SYSTEMDRIVE']` is not read. The Windows configuration directory is
  fixed as `c:/chef`, the value the suite expects.
- `load_cloud_attributes_in_hints` and `Socket.gethostname` (lines 495-499)
  are not called by the paths the suite exercises.
- `puts` and `Chef::Log` output are not modelled.
- Ruby's interpolation of nil renders as the empty string.
- `-L` in the bootstrap command is the extension's log directory
  (`azurePluginLogLocation`). The suite's first-run tests interpolate the
  log location of the configuration record, which is nil there, so both
  give "/chef-client.log".
- The `shell_out` call of a first run (lines 188-189 and 207-208) is not
  recorded among the calls: the suite stubs it without stating its command.
- The failure status texts are exactly "chef-service install failed - " and
  "chef-service enable failed - ", as lines 140 and 154 expect; any detail
  the handler may add after the dash is not modelled.
- Run-list segments are not trimmed: "recipe[a], recipe[b]" gives a second
  segment " recipe[b]", which is wrapped as "recipe[ recipe[b]]". The
  suite never puts spaces around a comma.
- Heartbeat.FinalReport: a captured but empty error text adds no suffix to
  the final message, so the message never ends in a bare "error- ". The
  suite only captures the non-empty error "Chef client failed" (lines 27
  and 103).
- Enable.EnableChef.Run: a missing settings file is reported with status
  "error" and raises before the first heartbeat, whether or not the rendered
  configuration exists. The suite never runs with a missing settings file.
  It stubs the settings reads only inside a first run's bootstrap (lines
  170-174 and 225-229), not for a later run (lines 273-283). That placement
  would report the error after the first heartbeat, and only on a first
  activation. The model does not capture it.
- Runlist.EscapeRunlist: a segment that is empty once unquoted is dropped,
  so "a,,b" gives the items of "a" and "b", and both "," and "\"\"" give
  none. The suite never shows an empty segment; only the empty run list
  giving no item is promised.
- ShellWords does not interpret backslash escapes or single quotes. The
  word-vector lemmas hold for paths without spaces or double quotes, which
  is what they require.
