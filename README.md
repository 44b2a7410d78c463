# daemon — a Dafny model of the Go service-management package

The Go package `daemon` installs the running program (or another
executable) as a system service and then enables, disables, removes,
starts, stops, queries and tails it. It supports three init systems:

- systemd: a unit file under `/etc/systemd/system` and `systemctl`;
- supervisord: a program section under `/etc/supervisor/conf.d` and
  `supervisorctl`;
- System V init: an init script under `/etc/init.d`, a logrotate
  configuration, `chkconfig` and `service`.

`New` builds the service's configuration. It starts from defaults derived
from the program's own path, applies the `With*` options in order and
validates the result. Then it detects the init system and returns the
matching backend. Package-level functions forward to a default instance.

This project models:

- that configuration pipeline (`Options`);
- init-system detection and the privilege check (`Detect`);
- every operation of the three backends (`Systemd`, `Supervisord`, `SystemV`);
- `New` and the package-level facade (`Daemon`).

It proves the properties the code promises about them.

## How the host is modelled

Commands, the filesystem and the executable lookup are inputs:

- `Host.Env` holds three oracles:
  - `run(argv, running)` says whether a command exits successfully and what it prints, given whether the service currently runs;
  - `refuses(call)` says which filesystem calls fail;
  - `resolve(exec)` stands for `exec.LookPath` followed by `filepath.Abs`.
- `Host.World` is the host's state:
  - the regular files with their contents;
  - the directories;
  - whether the service runs;
  - whether it is registered with the init system.

Each operation is a pure function from a specification, the oracles and a
world to a `Step`: the reply (nil error, wrapped error, or the status
report that would be printed) and the new world.

The `*config` shared by options, `setupConfig` and `Install` is the class
`Options.Config`. Each backend is a class holding that configuration. Its
methods are proved equal to the step functions, and the lemmas state the
properties of those functions. `Install` also rewrites the configuration's
`Exec`, as the Go code does. Templates are rendered as lists of lines
joined with newlines. Their properties are stated as "this exact line
occurs in the file" (`Text.HasLine`).

## Behaviour kept as the code has it

The model follows the code in these places, where a reader of the
package's documentation might expect otherwise:

- System V `Start`, `Stop`, `Status` and `Log` make no privilege check
  (`SystemV.StartWithoutPrivileges`).
- System V `Remove` stops at the first failing step. It fails when the
  logrotate configuration is missing, although by then the service is
  stopped and unregistered and its script deleted
  (`SystemV.RemoveWithoutLogrotateConf`).
- A failed System V `Install` removes the init script but leaves behind:
  - the log file and its directory;
  - the logrotate configuration, when it is `chkconfig --add` that failed.

  `SystemV.InstallFailureResidue` bounds the residue: at most these paths
  are added and nothing else changes. It assumes the host allows removing
  the script, no logrotate configuration was there before, and the script's
  path is neither the log file nor its directory. The supervisord backend
  likewise leaves its log file and directory behind
  (`Supervisord.InstallFailureResidue`).
- When the executable lookup fails, `Install` sets `Exec` to "" before
  returning the error. The assignment `s.c.Exec, err = executablePath(...)`
  does that.
- A non-empty `Dependencies` adds one blank line to both templates. It
  comes after the description in the systemd unit, and before the INIT
  INFO block in the init script (`Systemd.UnitFileHead`,
  `SystemV.InitScriptGap`).
- `WithExec` alone does not move the name, working directory or log, pid
  and lock paths. `defaultConfig` already filled them from the running
  program (`Options.WithExecKeepsProgramDefaults`).
- Two places use `/var/log/<name>/<name>.log` whatever `LogFile` says:
  - supervisord's `configLogFile` creates it, while the program section
    sends output to `LogFile` (`Supervisord.LogFileIgnoresConfig`);
  - the System V logrotate configuration rotates it
    (`SystemV.LogrotateConfHead`).
- Supervisord `Install` leaves the program running: the section sets
  `autostart=true`, so `supervisorctl add` starts it
  (`Supervisord.InstallStarts`).
- Supervisord `Status` and `isRunning` read the same output differently.
  An output that shows STOPPED before RUNNING is reported stopped yet
  counts as running (`Supervisord.StoppedButRunning`).

## Model

| member | source | states |
|---|---|---|
| Errors.WrapKeepsKind | systemv.go:17-21 | wrapping an error with a context (`%w`) keeps `errors.Is` true for exactly the sentinels the wrapped error matched |
| Text.Leftmost | daemon.go:270-271 | the regexp alternative found is one of the words and occurs in the text; "" only when no word occurs |
| Text.LeftmostOfTwo | daemon.go:270-271 | with two alternatives the one whose first occurrence comes first wins, the first one on a tie |
| Text.FirstAtIsFirst | daemon.go:270-271 | at one position, the alternative tried first wins: the word matched comes no later in the list than any other word matching there |
| Text.LeftmostIsLeftmost | daemon.go:270-271 | the alternative found occurs no later than any other word, and among the words occurring at that same position it is the first listed (leftmost-first matching) |
| Text.DigitsAfter | systemd.go:134-136 | the captured pid is the maximal digit run after the first position where the prefix is followed by a digit, so it is non-empty, all digits and follows the prefix in the output; none exactly when no digit follows the prefix anywhere |
| Text.DigitsAfterPrefix | systemd.go:134-136 | for any output `a + prefix + d + b` where `a` holds no earlier prefix followed by a digit and `b` does not continue the digits, the capture is exactly `d` |
| Text.ToLower | systemd.go:171 | lower-casing keeps the length and maps every character independently |
| Text.SpaceBefore | daemon.go:298 | the count of leading white space: all counted characters are white space and the next is not |
| Text.SpaceAfter | daemon.go:298 | the count of trailing white space, likewise |
| Text.TrimSpace | daemon.go:298 | the result is the slice of the input between its leading and trailing white space, and neither of its ends is white space |
| Text.ParseUint32 | daemon.go:298 | parsing succeeds exactly for a non-empty digit string whose value fits in 32 bits, and yields that value |
| Text.ParseDigitsValue | daemon.go:298 | the digit loop with its 32-bit overflow check, started on a digit prefix, yields the decimal value of the whole string exactly when it is all digits and fits in 32 bits, and fails otherwise |
| Text.ParseZero | daemon.go:298-302 | the parsed group id is 0 exactly for a non-empty string of zeros |
| Text.LineInJoin | systemd.go:176-198 | every inner line of a template appears in the rendered text between two newlines |
| Text.FirstLineOfJoin | systemv.go:335 | the rendered text starts with its first line and a newline |
| Paths.Base | daemon.go:236-238 | path.Base is never empty |
| Paths.Dir | daemon.go:239-241 | path.Dir is never empty |
| Paths.DirBaseJoin | daemon.go:251-253 | for a clean absolute path the base holds no slash and directory plus base give the path back |
| Host.Open | systemv.go:40-43 | opening with O_TRUNC succeeds unless refused or a directory is there, and leaves an empty file |
| Host.Write | systemv.go:52-54 | rendering into the opened file stores the text unless the write is refused |
| Host.Remove | systemv.go:134-136 | os.Remove succeeds exactly when something is there and removal is allowed; afterwards it is gone |
| Host.RemoveQuietly | systemd.go:45-58 | an ignored removal deletes the path when allowed and otherwise changes nothing |
| Host.RemoveUndoesCreate | systemd.go:45-58 | removing a file that did not exist before it was written restores the host exactly |
| Host.Mkdir | systemv.go:268-270 | os.MkdirAll adds the directory unless refused |
| Host.RemoveUndoesMkdir | systemv.go:266-276 | removing a directory that did not exist before it was made restores the host exactly |
| Host.Create | systemv.go:278-281 | os.Create leaves an empty file unless refused or a directory is there |
| Host.Command | systemd.go:50-53 | a command's error is nil exactly when it exits successfully, and otherwise names the command |
| Host.GrowsThenUndo | supervisord.go:44-61 | adding a file, then other paths, then removing the file leaves only the other paths added |
| Options.Applied | daemon.go:84-142 | an option writes its value into its own field |
| Options.AppliedWritesOne | daemon.go:84-142 | an option leaves every other field unchanged |
| Options.LastWriteWins | daemon.go:202-206 | the last option that writes a field decides its value |
| Options.UnwrittenFieldKept | daemon.go:202-206 | a field no option writes keeps its default |
| Options.OptionsCommute | daemon.go:84-142 | options that write different fields commute |
| Options.Defaults | daemon.go:245-263 | the defaults of program p: exec p, name Base(p), working directory Dir(p), user and group root, and the description, log, pid and lock paths built from the name |
| Options.Setup | daemon.go:229-243 | a nil config and an empty Exec are rejected with their sentinels; otherwise only an empty Name and WorkDir are filled, from Exec |
| Options.WithExecKeepsProgramDefaults | daemon.go:229-259 | WithExec alone changes only Exec: name, working directory and paths stay those of the running program |
| Options.ClearedFieldsDeriveFromExec | daemon.go:229-243 | clearing Name and WorkDir after WithExec makes setupConfig derive them from the new Exec |
| Options.Config.Apply | daemon.go:84-86 | applying an option to the config object gives the value Applied describes |
| Options.DefaultConfig | daemon.go:245-263 | nil exactly when the program path is unavailable, otherwise a fresh config holding Defaults |
| Options.SetupConfig | daemon.go:229-243 | the config object ends as Setup says, and is untouched when an error is returned |
| Detect.Check | daemon.go:265-284 | check returns one of systemd, supervisor and init, or the ps failure, or unsupported system |
| Detect.CheckPrecedence | daemon.go:265-284 | systemd when its name precedes any "init" in process 1's line; else supervisor when `which supervisord` succeeds; else init when "init" occurs; else unsupported |
| Detect.Privileges | daemon.go:296-306 | checkPrivileges yields nil, the root-privileges error or unsupported system |
| Detect.PrivilegesClassified | daemon.go:296-306 | nil exactly for a trimmed `id -g` output of zeros; the root-privileges error for any other 32-bit number; unsupported when id fails or the output does not parse |
| Systemd.UnitFileLines | systemd.go:176-198 | the unit holds the description, the dependency list (default when unset) in Requires and After, the user, working directory, pid file and the command line, each on a line of its own |
| Systemd.UnitFileHead | systemd.go:176-183 | Requires follows Description directly without dependencies and after a blank line with them |
| Systemd.UnitFileIgnores | systemd.go:176-198 | the unit depends only on description, name, exec, args, working directory, dependencies and user |
| Systemd.InstallGuards | systemd.go:22-32 | the privilege check, the existing-unit check and the lookup come first, leave the host alone, and a failed lookup clears Exec |
| Systemd.InstallSucceeds | systemd.go:16-61 | Install succeeds exactly when every step does; then the unit holds the template for the resolved executable, the service is enabled and nothing else changed; errors are wrapped |
| Systemd.WriteUnitSucceeds | systemd.go:39-58 | writing, reloading and enabling succeed exactly when none of them fails, and then only the unit file and registration change |
| Systemd.InstallFailureLeavesHost | systemd.go:39-58 | a failed Install leaves the host exactly as before when the unit file may be removed |
| Systemd.WriteUnitFailureLeavesHost | systemd.go:39-58 | the same for the steps after the checks |
| Systemd.InstallTwice | systemd.go:26-28 | after a successful Install a second one is refused as already installed |
| Systemd.RemoveBestEffort | systemd.go:71-86 | Remove refuses an unprivileged caller and an absent unit without changing the host; otherwise it always succeeds, the service ends stopped exactly when it was already or the stop succeeded, unregistered exactly when it was already or `systemctl disable` succeeded, the unit is deleted whenever allowed, and nothing else changes |
| Systemd.StartStopCycle | systemd.go:88-122 | Start then Stop returns the host to where it was, and repeating either is refused |
| Systemd.StatusAfterChecks | systemd.go:124-146 | past the checks Status reports running or stopped, running exactly when `systemctl status` succeeds and says "Active: active"; a reported pid is a digit string that follows "Main PID: " in the output |
| Systemd.LogOutcome | systemd.go:148-154 | Log refuses a missing unit file, with no privilege check, and otherwise succeeds exactly when `journalctl -fu` exits successfully, naming the command when it does not |
| Systemd.Backend.Install | systemd.go:16-61 | the reply, host and new Exec are InstallStep's, described by its InstallSucceeds and failure lemmas |
| Systemd.Backend.Enable | systemd.go:63-65 | does nothing and succeeds |
| Systemd.Backend.Disable | systemd.go:67-69 | does nothing and succeeds |
| Systemd.Backend.Remove | systemd.go:71-86 | the reply and host are RemoveStep, whose outcome Systemd.RemoveBestEffort states |
| Systemd.Backend.Start | systemd.go:88-104 | the reply and host are StartStep, whose cycle with Stop Systemd.StartStopCycle states |
| Systemd.Backend.Stop | systemd.go:106-122 | the reply and host are StopStep, whose cycle with Start Systemd.StartStopCycle states |
| Systemd.Backend.Status | systemd.go:124-146 | the reply and host are StatusReply, which Systemd.StatusAfterChecks relates to the command's output |
| Systemd.Backend.Log | systemd.go:148-154 | the reply is LogReply, whose outcome Systemd.LogOutcome states |
| Supervisord.IniFileLines | supervisord.go:202-212 | the section is named after the service and sets the working directory, the command line and the configured log file |
| Supervisord.IniFileIgnores | supervisord.go:202-212 | the section depends only on name, working directory, exec, args and log file |
| Supervisord.LogFileReady | supervisord.go:184-200 | configLogFile only adds the log directory and file, and on success the file exists |
| Supervisord.LogFileIdempotent | supervisord.go:184-200 | once configLogFile has succeeded, calling it again changes nothing |
| Supervisord.InstallGuards | supervisord.go:21-32 | the privilege check, the existing-section check and the lookup come first, leave the host alone, and a failed lookup clears Exec |
| Supervisord.InstallSucceeds | supervisord.go:15-63 | Install succeeds exactly when the checks, the lookup, writing the section, configLogFile, `supervisorctl reread` and `add` all succeed; then the section holds the template for the resolved executable, the log file exists, the program is added and running (the section sets autostart=true), and nothing but the section and the log paths changed; errors are wrapped |
| Supervisord.WriteIniSucceeds | supervisord.go:38-61 | for an absent section: succeeds exactly when opening and writing it, configLogFile, `reread` and `add` succeed, and then the program is added and running and only the section and the log paths were added |
| Supervisord.RegisterSucceeds | supervisord.go:49-61 | once the section is written: succeeds exactly when configLogFile, `reread` and `add` succeed, and then the program is added and running, the section is kept and only the log paths were added |
| Supervisord.InstallTwice | supervisord.go:21-27 | after a successful Install a second one is refused, as already installed when the caller is still privileged, and changes nothing |
| Supervisord.InstallStarts | supervisord.go:58-61 | a successful Install leaves the program running, so a Start straight after it is refused as already running when `supervisorctl status` reports it |
| Supervisord.InstallFailureResidue | supervisord.go:38-61 | a failed Install removes the section when allowed, and leaves at most the log directory and file added |
| Supervisord.WriteIniFailureResidue | supervisord.go:38-61 | the same for the steps after the checks |
| Supervisord.RegisterFailureResidue | supervisord.go:49-61 | the same for the steps after writing the section |
| Supervisord.RemoveBestEffort | supervisord.go:73-85 | Remove refuses an unprivileged caller and an absent section without changing the host; otherwise it always succeeds, the program ends stopped exactly when it was already or the stop succeeded, unregistered exactly when it was already or `supervisorctl remove` succeeded, the section is deleted whenever allowed, and nothing else changes |
| Supervisord.StatusAgreesWithIsRunning | supervisord.go:124-182 | Status reports starting or running only when isRunning holds, and prints nothing exactly when no state word occurs |
| Supervisord.StoppedButRunning | supervisord.go:124-182 | an output with STOPPED before RUNNING is reported stopped while isRunning holds |
| Supervisord.StartOutcome | supervisord.go:87-105 | Start's guards in order (privileges, installed, not running); it succeeds exactly when they pass, the log file can be prepared and `supervisorctl start` succeeds; it only adds the log paths and sets the service running exactly on success |
| Supervisord.StopOutcome | supervisord.go:107-122 | Stop's guards in order (privileges, installed, running); it succeeds exactly when they pass and `supervisorctl stop` succeeds, and only a success changes the host, by stopping the service |
| Supervisord.StartStopCycle | supervisord.go:87-122 | Start then Stop: Start succeeds, a second Start is refused as already running, Stop succeeds, a second Stop is refused as already stopped, and the host ends as before but for the log paths |
| Supervisord.LogOutcome | supervisord.go:154-162 | Log refuses an uninstalled program and otherwise succeeds exactly when the log file can be prepared and `supervisorctl tail -f` exits successfully; it only adds the log paths |
| Supervisord.LogFileIgnoresConfig | supervisord.go:184-200 | after a successful Start the file /var/log/<name>/<name>.log exists, whatever LogFile says |
| Supervisord.Backend.ConfigLogFile | supervisord.go:184-200 | the reply and host are LogFileStep, which Supervisord.LogFileReady and Supervisord.LogFileIdempotent describe |
| Supervisord.Backend.Install | supervisord.go:15-63 | the reply, host and new Exec are InstallStep's, which Supervisord.InstallGuards, Supervisord.InstallSucceeds and Supervisord.InstallFailureResidue describe |
| Supervisord.Backend.Enable | supervisord.go:65-67 | does nothing and succeeds |
| Supervisord.Backend.Disable | supervisord.go:69-71 | does nothing and succeeds |
| Supervisord.Backend.Remove | supervisord.go:73-85 | the reply and host are RemoveStep, whose outcome Supervisord.RemoveBestEffort states |
| Supervisord.Backend.Start | supervisord.go:87-105 | the reply and host are StartStep, whose outcome Supervisord.StartOutcome states |
| Supervisord.Backend.Stop | supervisord.go:107-122 | the reply and host are StopStep, whose outcome Supervisord.StopOutcome states |
| Supervisord.Backend.Status | supervisord.go:124-152 | the reply and host are StatusReply, which Supervisord.StatusAgreesWithIsRunning relates to isRunning |
| Supervisord.Backend.Log | supervisord.go:154-162 | the reply and host are LogStep, whose outcome Supervisord.LogOutcome states |
| SystemV.LogrotateConfHead | systemv.go:320-333 | the configuration's block is for /var/log/<name>/<name>.log, whatever LogFile says, and keeps 10 rotations |
| SystemV.InitScriptLines | systemv.go:335-372 | the script is a shell script naming the service, the dependency list (default when unset) as Required-Start and Required-Stop, and setting exec, args, name, user, group, pid, lock and log files and working directory |
| SystemV.InitScriptGap | systemv.go:342-348 | two blank lines precede the INIT INFO block without dependencies, three with them |
| SystemV.LogFileAtomic | systemv.go:262-284 | when the directory may be removed, a failed configLogFile leaves the host as it was, removing the directory it made; on success the log file exists |
| SystemV.LogFileGrows | systemv.go:262-284 | configLogFile never removes or overwrites anything and adds at most the log file and its directory |
| SystemV.LogRotateOutcome | systemv.go:286-314 | configLogRoate succeeds exactly when the log file can be prepared, `chown` succeeds and the configuration can be opened and written; then the log file exists and the configuration holds its template; whatever happens only the log file, its directory and the configuration change |
| SystemV.WriteConfOutcome | systemv.go:298-313 | writing the configuration succeeds exactly when it can be opened and written, and touches nothing else |
| SystemV.LogRotateGrows | systemv.go:286-314 | configLogRoate adds at most the log file, its directory and the configuration |
| SystemV.WriteConfGrows | systemv.go:298-313 | writing the configuration adds at most that file, removing it again when the write fails |
| SystemV.InstallGuards | systemv.go:22-33 | the privilege check, the existing-script check and the lookup come first, leave the host alone, and a failed lookup clears Exec |
| SystemV.InstallSucceeds | systemv.go:16-64 | Install succeeds exactly when the checks, the lookup, opening and writing the script, configLogRoate and `chkconfig --add` all succeed; then the script holds the template for the resolved executable, the log file and logrotate configuration exist, the service is registered and nothing outside the script, the log paths and the configuration changed; errors carry Install's context |
| SystemV.WriteScriptSucceeds | systemv.go:40-63 | the same iff and frame for the steps from opening the script on |
| SystemV.RegisterSucceeds | systemv.go:56-63 | once the script is written: succeeds exactly when configLogRoate and `chkconfig --add` succeed, and then the script is kept and only the log paths and the configuration changed |
| SystemV.InstallTwice | systemv.go:26-28 | after a successful Install a second one is refused as already installed and changes nothing |
| SystemV.InstallFailureResidue | systemv.go:16-64 | a failed Install removes the script when allowed and leaves at most the log file, its directory and the logrotate configuration added |
| SystemV.WriteScriptFailureResidue | systemv.go:41-63 | the same for the steps after the checks |
| SystemV.RegisterFailureResidue | systemv.go:46-63 | the same for the steps after writing the script |
| SystemV.EnableDisableOutcome | systemv.go:66-114 | Enable succeeds exactly when privileged, installed and `chkconfig --add` succeeds, and only registers; Disable likewise with `--del` |
| SystemV.RemoveOutcome | systemv.go:116-141 | Remove succeeds exactly when every step does; then the service is stopped and unregistered and both files are gone |
| SystemV.RemoveAborts | systemv.go:116-141 | the guards change nothing; a failing stop leaves the host as it was; a failing `chkconfig --del` leaves it stopped but registered; a script that cannot be removed leaves it stopped and unregistered; past that only the script and configuration change and the script is gone |
| SystemV.RemoveWithoutLogrotateConf | systemv.go:116-141 | without a logrotate configuration Remove fails, after stopping, unregistering and deleting the script |
| SystemV.StartWithoutPrivileges | systemv.go:143-163 | Start succeeds for an unprivileged caller |
| SystemV.StartOutcome | systemv.go:143-163 | Start's guards in order (installed, not running; no privilege check); it succeeds exactly when they pass, the log file can be prepared and `service start` succeeds; it only adds the log paths and sets the service running exactly on success |
| SystemV.StopOutcome | systemv.go:165-189 | Stop's guards in order (installed, running; no privilege check); it succeeds exactly when they pass and `service stop` succeeds, and only a success changes the host, by stopping the service |
| SystemV.StartStopCycle | systemv.go:143-189 | after a successful Start a second Start is refused as already running, Stop succeeds and ends stopped with registration unchanged and at most the log paths added, and a second Stop is refused as already stopped |
| SystemV.StatusAgreesWithIsRunning | systemv.go:191-260 | Status shows running exactly when isRunning holds, stopped exactly when `service status` fails, the raw output otherwise |
| SystemV.LogOutcome | systemv.go:224-239 | Log succeeds exactly when installed and the log file can be prepared, and then it exists |
| SystemV.Backend.ConfigLogFile | systemv.go:262-284 | the reply and host are LogFileStep, which SystemV.LogFileAtomic and SystemV.LogFileGrows describe |
| SystemV.Backend.ConfigLogRotate | systemv.go:286-314 | the reply and host are LogRotateStep, which SystemV.LogRotateOutcome and SystemV.LogRotateGrows describe |
| SystemV.Backend.Install | systemv.go:16-64 | the reply, host and new Exec are InstallStep's, which SystemV.InstallGuards, SystemV.InstallSucceeds and SystemV.InstallFailureResidue describe |
| SystemV.Backend.Enable | systemv.go:66-89 | the reply and host are EnableStep, whose outcome SystemV.EnableDisableOutcome states |
| SystemV.Backend.Disable | systemv.go:91-114 | the reply and host are DisableStep, whose outcome SystemV.EnableDisableOutcome states |
| SystemV.Backend.Remove | systemv.go:116-141 | the reply and host are RemoveStep, whose outcome SystemV.RemoveOutcome and SystemV.RemoveAborts state |
| SystemV.Backend.Start | systemv.go:143-163 | the reply and host are StartStep, whose outcome SystemV.StartOutcome states |
| SystemV.Backend.Stop | systemv.go:165-189 | the reply and host are StopStep, whose outcome SystemV.StopOutcome states |
| SystemV.Backend.Status | systemv.go:191-222 | the reply and host are StatusReply, which SystemV.StatusAgreesWithIsRunning relates to isRunning |
| SystemV.Backend.Log | systemv.go:224-239 | the reply and host are LogStep, whose outcome SystemV.LogOutcome states |
| Daemon.Choose | daemon.go:213-227 | newDaemon's switch accepts exactly supervisor, init and systemd, and otherwise gives unsupported system |
| Daemon.DetectedPrecedence | daemon.go:213-227 | the backend chosen follows check's precedence, and the switch's default branch is never taken |
| Daemon.NewDaemon | daemon.go:213-227 | a backend of the detected kind over the given config, or check's error |
| Daemon.New | daemon.go:202-211 | New returns setupConfig's error first, then the detection error, else a backend of the detected kind over a fresh config holding the built specification |
| Daemon.Outcome | daemon.go:53-62 | only Install changes the configuration, and only its Exec; Status never changes the host |
| Daemon.CallSupervisord | daemon.go:53-62 | each interface method on a supervisord backend has the outcome Outcome gives |
| Daemon.CallSystemV | daemon.go:53-62 | the same for a System V backend |
| Daemon.CallSystemd | daemon.go:53-62 | the same for a systemd backend |
| Daemon.Call | daemon.go:146-200 | the package-level functions return unsupported system without an instance, and otherwise forward to it |

## Left out

- `execCommandWithOutput` is not modelled. Its signal handling, context
  cancellation and streamed output are concurrency and OS signals.
  systemd and supervisord `Log` take the command's exit as their
  result; System V `Log` ignores it, as the code does.
- Printing is not modelled. `Status` returns the report it would print
  (`Errors.Report`), and the other messages are dropped.
- The regular expressions are modelled as fixed-text searches. System V
  `isRunning` and `Status` use the service name as a pattern. The model
  treats the name as literal text and leaves out the branch for a name
  that does not compile.
- Text.ToLower: only ASCII letters are lowered, not all of Unicode.
- Paths.Base: the contract states only that the result is non-empty. The
  full relation is proved for clean absolute paths (`Paths.DirBaseJoin`).
  path.Clean's handling of `.`, `..` and repeated slashes is not modelled.
- Paths.Dir: the same as Paths.Base.
- The filesystem is a flat map of paths:
  - `os.MkdirAll` does not record the parent directories it creates;
  - a path under a regular file behaves like any other path;
  - the trailing slash of supervisord's log directory is dropped.
- File modes, ownership and the effect of `chown -R` are not modelled.
  Only whether `chown` succeeds is.
- Template rendering that fails part-way is modelled as leaving the
  truncated, empty file. The templates are constants, so their parse
  errors cannot happen and are not modelled.
- `file.Close` errors are not modelled. That includes the one
  supervisord's `configLogFile` returns.
- `executablePath` is a single oracle. Its `LookPath` and `filepath.Abs`
  errors both become `NotFound(exec)`.
- A command's answer depends only on its arguments and whether the
  service runs. A host whose answers change over time for other reasons
  is not modelled.
- The default instance built at package initialisation (`selfWrapDaemon`)
  is a parameter of `Daemon.Call`. An instance over a nil config, which
  panics on use, is not modelled.
- Daemon.New: requires the program's path when options are given. Go
  dereferences the nil default config in the first option and panics.
- The example programs are not modelled.
