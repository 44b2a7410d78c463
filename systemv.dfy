/** The System V init backend (systemv.go): an init script under
    /etc/init.d, a logrotate configuration, the service's log file and the
    chkconfig and service commands. */
module SystemV {
  import opened Errors
  import opened Text
  import opened Paths
  import opened Host
  import opened Options
  import opened Detect

  const DefaultDependencies: string := "$network $time $named $local_fs"

  function ServicePath(name: string): string
  {
    "/etc/init.d/" + name
  }

  function LogrotatePath(name: string): string
  {
    "/etc/logrotate.d/" + name
  }

  function AddArgv(name: string): seq<string> { ["chkconfig", "--add", name] }
  function DelArgv(name: string): seq<string> { ["chkconfig", "--del", name] }
  function ServiceArgv(name: string, verb: string): seq<string> { ["service", name, verb] }
  function ChownArgv(s: Spec): seq<string> { ["chown", "-R", s.user + ":" + s.group, Dir(s.lockFile)] }

  /** Every public operation wraps its error with a context of its own. */
  function Fail(context: string, e: Error): Reply
  {
    Failed(Wrapped(context, e))
  }

  const InstallContext := "failed to install service"
  const EnableContext := "failed to enable service"
  const DisableContext := "failed to disable service"
  const RemoveContext := "failed to remove service"
  const StartContext := "failed to start service"
  const StopContext := "failed to stop service"
  const StatusContext := "failed to show service's status"
  const LogContext := "failed to show service's log"

  /** logRoateConf rendered for a service name, line by line; the text has
      no final newline. */
  function LogrotateLines(name: string): seq<string>
  {
    ["/var/log/" + name + "/" + name + ".log {", "\tcopytruncate", "    daily", "    rotate 10",
     "    missingok", "    notifempty", "    dateext", "\tdateformat %Y%m%d", "    compress",
     "    delaycompress", "\tnotifempty", "\tnomail", "\tnoolddir", "}"]
  }

  function LogrotateConf(name: string): string
  {
    JoinLines(LogrotateLines(name))
  }

  /** The rotated file is /var/log/<name>/<name>.log: the configuration is
      built from the name alone, so a configured LogFile elsewhere is not
      rotated. */
  lemma LogrotateConfHead(name: string)
    ensures StartsWith(LogrotateConf(name), "/var/log/" + name + "/" + name + ".log {\n")
    ensures HasLine(LogrotateConf(name), "    rotate 10")
  {
    FirstLineOfJoin(LogrotateLines(name));
    LineInJoin(LogrotateLines(name), 3);
  }

  function ScriptDependencies(s: Spec): string
  {
    if s.dependencies == "" then DefaultDependencies else s.dependencies
  }

  /** The lines of systemvScript that depend on the configuration. As in
      the systemd unit, the template's trim markers add one more blank line
      before the INIT INFO block when Dependencies is set. */
  function ScriptHead(s: Spec): seq<string>
  {
    var deps := ScriptDependencies(s);
    ["#! /bin/sh", "#", "#       /etc/rc.d/init.d/" + s.name, "#", "#       Starts " + s.name + " as a daemon",
     "#", "# chkconfig: 2345 87 17", "# description: " + s.description, "", ""]
    + (if s.dependencies == "" then [] else [""])
    + ScriptInfo(s, deps)
  }

  function ScriptInfo(s: Spec, deps: string): seq<string>
  {
    ["### BEGIN INIT INFO", "# Provides: " + s.name, "# Required-Start: " + deps,
     "# Required-Stop: " + deps, "# Default-Start: 2 3 4 5", "# Default-Stop: 0 1 6",
     "# Short-Description: start and stop " + s.name + ".", "# Description: " + s.description,
     "### END INIT INFO", "", "#", "# Source function library.", "#",
     "if [ -f /etc/rc.d/init.d/functions ]; then", "    . /etc/rc.d/init.d/functions", "fi",
     "exec=\"" + s.exec + "\"", "args=\"" + s.args + "\"", "servname=\"" + s.name + "\"",
     "user=\"" + s.user + "\"", "group=\"" + s.group + "\"", "pidfile=\"" + s.pidFile + "\"",
     "lockfile=\"" + s.lockFile + "\"", "workingDirectory=\"" + s.workDir + "\"",
     "logFile=\"" + s.logFile + "\""]
  }

  /** The rest of systemvScript, the same for every service. */
  const ScriptBody: seq<string> := [
    "[ -d $(dirname $lockfile) ] || mkdir -p $(dirname $lockfile)",
    "[ -e /etc/sysconfig/$servname ] && . /etc/sysconfig/$servname",
    "",
    "execPrifx=\"\"",
    "userName=`whoami`",
    "if [ $userName == \"root\" ]; then",
    "    execPrifx=\"su -l $user -c \"",
    "elif [ $userName != $user ]; then",
    "    echo \"only run with user root or $user\"",
    "    exit 1",
    "fi",
    "",
    "start() {",
    "    [ -x $exec ] || exit 5",
    "    if [ -f $pidfile ]; then",
    "        if ! [ -d \"/proc/$(cat $pidfile)\" ]; then",
    "            rm $pidfile",
    "            if [ -f $lockfile ]; then",
    "                rm $lockfile",
    "            fi",
    "        fi",
    "    fi",
    "    if ! [ -f $pidfile ]; then",
    "        printf \"Starting $servname:\\t\"",
    "\t\tcd ${workingDirectory}",
    "        $execPrifx $exec $args &>> $logFile &",
    "        echo $! > $pidfile",
    "        touch $lockfile",
    "        chown -R $user:$group $(dirname $logFile)",
    "        chown -R $user:$group $(dirname $pidfile)",
    "        chown -R $user:$group $(dirname $lockfile)",
    "        success",
    "        echo",
    "    else",
    "        # failure",
    "        echo",
    "        printf \"$pidfile still exists...\\n\"",
    "        exit 7",
    "    fi",
    "}",
    "stop() {",
    "    echo -n $\"Stopping $servname: \"",
    "    killproc $servname",
    "    retval=$?",
    "    echo",
    "    [ $retval -eq 0 ] && rm -f $lockfile",
    "    return $retval",
    "}",
    "restart() {",
    "    stop",
    "    start",
    "}",
    "rh_status() {",
    "    status -p $pidfile $servname",
    "}",
    "rh_status_q() {",
    "    rh_status >/dev/null 2>&1",
    "}",
    "case \"$1\" in",
    "    start)",
    "        rh_status_q && exit 0",
    "        $1",
    "        ;;",
    "    stop)",
    "        rh_status_q || exit 0",
    "        $1",
    "        ;;",
    "    restart)",
    "        $1",
    "        ;;",
    "    status)",
    "        rh_status",
    "        ;;",
    "    *)",
    "        echo $\"Usage: $0 {start|stop|status|restart}\"",
    "        exit 2",
    "esac",
    "exit $?",
    ""
  ]

  function ScriptLines(s: Spec): seq<string>
  {
    ScriptHead(s) + ScriptBody
  }

  function InitScript(s: Spec): string
  {
    JoinLines(ScriptLines(s))
  }

  lemma ScriptInfoLine(s: Spec, k: nat)
    requires k < |ScriptInfo(s, ScriptDependencies(s))|
    ensures HasLine(InitScript(s), ScriptInfo(s, ScriptDependencies(s))[k])
  {
    var g := if s.dependencies == "" then 0 else 1;
    assert ScriptLines(s)[10 + g + k] == ScriptInfo(s, ScriptDependencies(s))[k];
    LineInJoin(ScriptLines(s), 10 + g + k);
  }

  /** The init script is a shell script that sets the service's variables
      from the configuration: the executable, its arguments, the name, the
      user and group, the pid, lock and log files and the working
      directory, and names the dependency list (the default one when none
      is configured) as Required-Start and Required-Stop. */
  lemma InitScriptLines(s: Spec)
    ensures var f, deps := InitScript(s), ScriptDependencies(s);
            StartsWith(f, "#! /bin/sh\n")
            && HasLine(f, "# Provides: " + s.name)
            && HasLine(f, "# Required-Start: " + deps) && HasLine(f, "# Required-Stop: " + deps)
            && HasLine(f, "exec=\"" + s.exec + "\"") && HasLine(f, "args=\"" + s.args + "\"")
            && HasLine(f, "servname=\"" + s.name + "\"")
            && HasLine(f, "user=\"" + s.user + "\"") && HasLine(f, "group=\"" + s.group + "\"")
            && HasLine(f, "pidfile=\"" + s.pidFile + "\"") && HasLine(f, "lockfile=\"" + s.lockFile + "\"")
            && HasLine(f, "workingDirectory=\"" + s.workDir + "\"")
            && HasLine(f, "logFile=\"" + s.logFile + "\"")
  {
    FirstLineOfJoin(ScriptLines(s));
    ScriptInfoLine(s, 1);
    ScriptInfoLine(s, 2);
    ScriptInfoLine(s, 3);
    ScriptInfoLine(s, 16);
    ScriptInfoLine(s, 17);
    ScriptInfoLine(s, 18);
    ScriptInfoLine(s, 19);
    ScriptInfoLine(s, 20);
    ScriptInfoLine(s, 21);
    ScriptInfoLine(s, 22);
    ScriptInfoLine(s, 23);
    ScriptInfoLine(s, 24);
  }

  /** The blank lines between the description and the INIT INFO block: two
      without configured dependencies, three with them. */
  lemma InitScriptGap(s: Spec)
    ensures s.dependencies == "" ==> ScriptHead(s)[7..11] == ["# description: " + s.description, "", "", "### BEGIN INIT INFO"]
    ensures s.dependencies != "" ==> ScriptHead(s)[7..12] == ["# description: " + s.description, "", "", "", "### BEGIN INIT INFO"]
  {
    var l := ScriptHead(s);
    var g := if s.dependencies == "" then 0 else 1;
    assert l[7] == "# description: " + s.description && l[8] == "" && l[9] == "";
    assert g == 1 ==> l[10] == "";
    assert l[10 + g] == "### BEGIN INIT INFO";
  }

  /** isRunning: `service <name> status` succeeds and its output contains
      the name. */
  function IsRunning(env: Env, name: string, running: bool): bool
  {
    var out := env.run(ServiceArgv(name, "status"), running);
    out.ok && Contains(out.output, name)
  }

  /** configLogFile for the configured LogFile: nothing to do when it
      exists; otherwise its directory is made if missing and the file is
      created, and a directory made here is removed again when the creation
      fails. */
  function LogFileStep(logFile: string, env: Env, w: World): Step
  {
    if Exists(w, logFile) then Step(Done, w)
    else
      var dir := Dir(logFile);
      if Exists(w, dir) then
        match Create(env, w, logFile)
        case None => Step(Failed(Fs("create", logFile)), w)
        case Some(w2) => Step(Done, w2)
      else
        match Mkdir(env, w, dir)
        case None => Step(Failed(Fs("mkdir", dir)), w)
        case Some(w1) =>
          match Create(env, w1, logFile)
          case None => Step(Failed(Fs("create", logFile)), RemoveQuietly(env, w1, dir))
          case Some(w2) => Step(Done, w2)
  }

  /** configLogFile is all or nothing on a host that lets it remove the
      directory it made: on failure the host is unchanged, on success the
      log file exists and only it and its directory were added. */
  lemma LogFileAtomic(logFile: string, env: Env, w: World)
    requires !env.refuses(Delete(Dir(logFile)))
    ensures var st := LogFileStep(logFile, env, w);
            (st.reply.Failed? ==> st.world == w)
            && (st.reply == Done ==> Exists(st.world, logFile))
            && Grows(w, st.world, {Dir(logFile), logFile})
  {
    var dir := Dir(logFile);
    if !Exists(w, logFile) && !Exists(w, dir) && !env.refuses(MkdirAll(dir)) {
      RemoveUndoesMkdir(env, w, dir);
    }
  }

  /** configLogFile never removes or overwrites anything, whatever the
      host refuses. */
  lemma LogFileGrows(logFile: string, env: Env, w: World)
    ensures var st := LogFileStep(logFile, env, w);
            (st.reply == Done ==> Exists(st.world, logFile))
            && (st.reply == Done || st.reply.Failed?)
            && Grows(w, st.world, {Dir(logFile), logFile})
  {
    var dir := Dir(logFile);
    if !Exists(w, logFile) && !Exists(w, dir) && !env.refuses(MkdirAll(dir)) {
      var w1 := Mkdir(env, w, dir).value;
      var r := RemoveQuietly(env, w1, dir);
      assert r.files == w.files || r.files == w1.files;
    }
  }

  /** configLogRoate: the log file, `chown -R user:group` of the lock
      file's directory, then the logrotate configuration, removed again
      when writing it fails. */
  function LogRotateStep(s: Spec, env: Env, w: World): Step
  {
    var log := LogFileStep(s.logFile, env, w);
    if log.reply.Failed? then log
    else
      var w1 := log.world;
      var chown := Command(env, w1, ChownArgv(s));
      if chown.Failed? then Step(chown, w1)
      else WriteConf(s.name, env, w1)
  }

  /** The logrotate configuration, removed again when writing it fails. */
  function WriteConf(name: string, env: Env, w: World): Step
  {
    var conf := LogrotatePath(name);
    match Open(env, w, conf)
    case None => Step(Failed(Fs("open", conf)), w)
    case Some(w1) =>
      match Write(env, w1, conf, LogrotateConf(name))
      case None => Step(Failed(Fs("write", conf)), RemoveQuietly(env, w1, conf))
      case Some(w2) => Step(Done, w2)
  }

  /** configLogRoate succeeds exactly when the log file can be prepared,
      `chown` succeeds and the logrotate configuration can be opened and
      written; then the log file is there and the configuration holds its
      template. Whatever the outcome, only the log file, its directory and
      the configuration change (a configuration that was already there may
      be truncated, rewritten or removed). */
  lemma LogRotateOutcome(s: Spec, env: Env, w: World)
    ensures var st, log, conf := LogRotateStep(s, env, w), LogFileStep(s.logFile, env, w), LogrotatePath(s.name);
            (st.reply == Done <==>
               log.reply == Done && env.run(ChownArgv(s), w.running).ok
               && conf !in log.world.dirs && !env.refuses(OpenTrunc(conf)) && !env.refuses(WriteText(conf)))
            && (st.reply == Done ==>
                  Exists(st.world, s.logFile)
                  && conf in st.world.files && st.world.files[conf] == LogrotateConf(s.name))
            && (st.reply == Done || st.reply.Failed?)
            && SameOutside(w, st.world, {Dir(s.logFile), s.logFile, conf})
  {
    var conf := LogrotatePath(s.name);
    var log := LogFileStep(s.logFile, env, w);
    LogFileGrows(s.logFile, env, w);
    GrowsSameOutside(w, log.world, {Dir(s.logFile), s.logFile});
    var chown := Command(env, log.world, ChownArgv(s));
    if log.reply == Done && chown == Done {
      WriteConfOutcome(s.name, env, log.world);
      SameOutsideTrans(w, log.world, LogRotateStep(s, env, w).world, {Dir(s.logFile), s.logFile}, {conf});
    }
  }

  /** Writing the logrotate configuration succeeds exactly when it can be
      opened and written, and touches nothing else. */
  lemma WriteConfOutcome(name: string, env: Env, w: World)
    ensures var st, conf := WriteConf(name, env, w), LogrotatePath(name);
            (st.reply == Done <==> conf !in w.dirs && !env.refuses(OpenTrunc(conf)) && !env.refuses(WriteText(conf)))
            && (st.reply == Done ==> conf in st.world.files && st.world.files[conf] == LogrotateConf(name))
            && (st.reply == Done || st.reply.Failed?)
            && SameOutside(w, st.world, {conf})
  {
  }

  /** Install: the checks, the executable lookup (which overwrites Exec,
      with "" on failure), then the init script. The second component is
      the new Exec. */
  function InstallStep(s: Spec, env: Env, w: World): (Step, string)
  {
    var priv := PrivilegesAt(env, w);
    if priv.Failed? then (Step(Fail(InstallContext, priv.err), w), s.exec)
    else if Exists(w, ServicePath(s.name)) then (Step(Fail(InstallContext, AlreadyInstalled), w), s.exec)
    else match env.resolve(s.exec)
      case None => (Step(Fail(InstallContext, NotFound(s.exec)), w), "")
      case Some(exec) => (WriteScript(s.(exec := exec), InitScript(s.(exec := exec)), env, w), exec)
  }

  /** The part of Install from the OpenFile on, writing `script` (the
      rendered template); once the script is opened, any failure removes it
      again. */
  function WriteScript(s: Spec, script: string, env: Env, w: World): Step
  {
    var path := ServicePath(s.name);
    match Open(env, w, path)
    case None => Step(Fail(InstallContext, Fs("open", path)), w)
    case Some(w1) =>
      match Write(env, w1, path, script)
      case None => Step(Fail(InstallContext, Fs("write", path)), RemoveQuietly(env, w1, path))
      case Some(w2) => Register(s, env, w2)
  }

  /** The rest of Install once the script is written: the log rotation,
      then `chkconfig --add`. */
  function Register(s: Spec, env: Env, w: World): Step
  {
    var path := ServicePath(s.name);
    var rot := LogRotateStep(s, env, w);
    if rot.reply.Failed? then Step(Fail(InstallContext, rot.reply.err), RemoveQuietly(env, rot.world, path))
    else
      var add := Command(env, rot.world, AddArgv(s.name));
      if add.Failed? then Step(Fail(InstallContext, add.err), RemoveQuietly(env, rot.world, path))
      else Step(Done, rot.world.(registered := true))
  }

  function EnableStep(s: Spec, env: Env, w: World): Step
  {
    var priv := PrivilegesAt(env, w);
    if priv.Failed? then Step(Fail(EnableContext, priv.err), w)
    else if !Exists(w, ServicePath(s.name)) then Step(Fail(EnableContext, NotInstalled), w)
    else
      var r := Command(env, w, AddArgv(s.name));
      if r.Failed? then Step(Fail(EnableContext, r.err), w) else Step(Done, w.(registered := true))
  }

  function DisableStep(s: Spec, env: Env, w: World): Step
  {
    var priv := PrivilegesAt(env, w);
    if priv.Failed? then Step(Fail(DisableContext, priv.err), w)
    else if !Exists(w, ServicePath(s.name)) then Step(Fail(DisableContext, NotInstalled), w)
    else
      var r := Command(env, w, DelArgv(s.name));
      if r.Failed? then Step(Fail(DisableContext, r.err), w) else Step(Done, w.(registered := false))
  }

  /** Remove: the checks, then `service <name> stop`, `chkconfig --del`, the
      init script and the logrotate configuration, stopping at the first
      failure. */
  function RemoveStep(s: Spec, env: Env, w: World): Step
  {
    var path, conf := ServicePath(s.name), LogrotatePath(s.name);
    var priv := PrivilegesAt(env, w);
    if priv.Failed? then Step(Fail(RemoveContext, priv.err), w)
    else if !Exists(w, path) then Step(Fail(RemoveContext, NotInstalled), w)
    else
      var stop := Command(env, w, ServiceArgv(s.name, "stop"));
      if stop.Failed? then Step(Fail(RemoveContext, stop.err), w)
      else
        var w1 := w.(running := false);
        var del := Command(env, w1, DelArgv(s.name));
        if del.Failed? then Step(Fail(RemoveContext, del.err), w1)
        else
          var w2 := w1.(registered := false);
          match Remove(env, w2, path)
          case None => Step(Fail(RemoveContext, Fs("remove", path)), w2)
          case Some(w3) =>
            match Remove(env, w3, conf)
            case None => Step(Fail(RemoveContext, Fs("remove", conf)), w3)
            case Some(w4) => Step(Done, w4)
  }

  /** Start: no privilege check; installed, not running, the log file, then
      `service <name> start`. */
  function StartStep(s: Spec, env: Env, w: World): Step
  {
    if !Exists(w, ServicePath(s.name)) then Step(Fail(StartContext, NotInstalled), w)
    else if IsRunning(env, s.name, w.running) then Step(Fail(StartContext, AlreadyRunning), w)
    else
      var log := LogFileStep(s.logFile, env, w);
      if log.reply.Failed? then Step(Fail(StartContext, log.reply.err), log.world)
      else
        var r := Command(env, log.world, ServiceArgv(s.name, "start"));
        if r.Failed? then Step(Fail(StartContext, r.err), log.world)
        else Step(Done, log.world.(running := true))
  }

  /** Stop: no privilege check; installed, running, then `service <name> stop`. */
  function StopStep(s: Spec, env: Env, w: World): Step
  {
    if !Exists(w, ServicePath(s.name)) then Step(Fail(StopContext, NotInstalled), w)
    else if !IsRunning(env, s.name, w.running) then Step(Fail(StopContext, AlreadyStopped), w)
    else
      var r := Command(env, w, ServiceArgv(s.name, "stop"));
      if r.Failed? then Step(Fail(StopContext, r.err), w)
      else Step(Done, w.(running := false))
  }

  /** What Status prints for the output of `service <name> status`: a
      failing command counts as stopped; an output naming the service means
      running (with the pid after "pid  " when there is one); any other
      output is printed as it is. */
  function StatusReport(name: string, out: Run): Report
  {
    if !out.ok then Stopped
    else if Contains(out.output, name) then Running(DigitsAfter(out.output, "pid  "))
    else Raw(out.output)
  }

  /** Status: no privilege check. */
  function StatusReply(s: Spec, env: Env, w: World): Reply
  {
    if !Exists(w, ServicePath(s.name)) then Fail(StatusContext, NotInstalled)
    else Shown(StatusReport(s.name, env.run(ServiceArgv(s.name, "status"), w.running)))
  }

  /** Log: installed and the log file; the outcome of `tail -f` is ignored. */
  function LogStep(s: Spec, env: Env, w: World): Step
  {
    if !Exists(w, ServicePath(s.name)) then Step(Fail(LogContext, NotInstalled), w)
    else
      var log := LogFileStep(s.logFile, env, w);
      if log.reply.Failed? then Step(Fail(LogContext, log.reply.err), log.world)
      else Step(Done, log.world)
  }

  lemma PathsDistinct(name: string)
    ensures ServicePath(name) != LogrotatePath(name)
  {
    assert ServicePath(name)[5] == 'i' && LogrotatePath(name)[5] == 'l';
  }

  /** configLogRoate never removes anything and, unless it truncates an
      existing logrotate configuration, only adds the log file, its
      directory and that configuration. */
  lemma LogRotateGrows(s: Spec, env: Env, w: World)
    requires !Exists(w, LogrotatePath(s.name))
    ensures Grows(w, LogRotateStep(s, env, w).world, {Dir(s.logFile), s.logFile, LogrotatePath(s.name)})
  {
    LogFileGrows(s.logFile, env, w);
    WriteConfGrows(s.name, env, w, LogFileStep(s.logFile, env, w).world, {Dir(s.logFile), s.logFile});
  }

  lemma WriteConfGrows(name: string, env: Env, w: World, w1: World, extra: set<string>)
    requires !Exists(w, LogrotatePath(name)) && Grows(w, w1, extra)
    ensures Grows(w, WriteConf(name, env, w1).world, extra + {LogrotatePath(name)})
  {
    var conf := LogrotatePath(name);
    match Open(env, w1, conf) {
      case None =>
      case Some(w2) =>
        GrowsByWrite(w, w1, conf, "", extra);
        match Write(env, w2, conf, LogrotateConf(name)) {
          case None =>
            var r := RemoveQuietly(env, w2, conf);
            assert r.files.Keys <= w2.files.Keys && r.dirs <= w2.dirs;
          case Some(w3) =>
            GrowsByWrite(w, w1, conf, LogrotateConf(name), extra);
        }
    }
  }

  /** Install's guards in order: privileges, an init script already there,
      then the executable lookup, which clears Exec when it fails; none of
      them changes the host. */
  lemma InstallGuards(s: Spec, env: Env, w: World)
    ensures PrivilegesAt(env, w).Failed? ==>
              InstallStep(s, env, w) == (Step(Fail(InstallContext, PrivilegesAt(env, w).err), w), s.exec)
    ensures PrivilegesAt(env, w) == Done && Exists(w, ServicePath(s.name)) ==>
              InstallStep(s, env, w) == (Step(Fail(InstallContext, AlreadyInstalled), w), s.exec)
    ensures PrivilegesAt(env, w) == Done && !Exists(w, ServicePath(s.name)) && env.resolve(s.exec).None? ==>
              InstallStep(s, env, w) == (Step(Fail(InstallContext, NotFound(s.exec)), w), "")
  {
  }

  /** Install succeeds exactly when every step does: the checks, the
      lookup, opening and writing the init script, configLogRoate on the
      host with the script written, and `chkconfig --add`. Then the script
      is rendered for the resolved executable (whose lines InitScriptLines
      lists), the log file and the logrotate configuration are there, the
      service is registered, and nothing outside the script, the log file,
      its directory and the configuration changed. Every failure is
      reported in Install's context. */
  lemma InstallSucceeds(s: Spec, env: Env, w: World)
    ensures var (st, e) := InstallStep(s, env, w);
            var path, conf := ServicePath(s.name), LogrotatePath(s.name);
            (st.reply == Done <==>
               PrivilegesAt(env, w) == Done && !Exists(w, path) && env.resolve(s.exec).Some?
               && !env.refuses(OpenTrunc(path)) && !env.refuses(WriteText(path))
               && LogRotateStep(s, env, w.(files := w.files[path := InitScript(s.(exec := env.resolve(s.exec).value))])).reply == Done
               && env.run(AddArgv(s.name), w.running).ok)
            && (st.reply == Done ==>
                  e == env.resolve(s.exec).value
                  && path in st.world.files && st.world.files[path] == InitScript(s.(exec := e))
                  && Exists(st.world, s.logFile)
                  && conf in st.world.files && st.world.files[conf] == LogrotateConf(s.name)
                  && SameOutside(w.(registered := true), st.world, {path, Dir(s.logFile), s.logFile, conf}))
            && (st.reply != Done ==> st.reply.Failed? && st.reply.err.Wrapped? && st.reply.err.context == InstallContext)
  {
    var (st, e) := InstallStep(s, env, w);
    if PrivilegesAt(env, w) == Done && !Exists(w, ServicePath(s.name)) && env.resolve(s.exec).Some? {
      var t := s.(exec := e);
      var script := InitScript(t);
      WriteScriptSucceeds(t, script, env, w);
      LogRotateIgnoresExec(s, e, env, w.(files := w.files[ServicePath(s.name) := script]));
    }
  }

  lemma WriteScriptSucceeds(s: Spec, script: string, env: Env, w: World)
    ensures var st, path, conf := WriteScript(s, script, env, w), ServicePath(s.name), LogrotatePath(s.name);
            (st.reply == Done <==>
               path !in w.dirs && !env.refuses(OpenTrunc(path)) && !env.refuses(WriteText(path))
               && LogRotateStep(s, env, w.(files := w.files[path := script])).reply == Done
               && env.run(AddArgv(s.name), w.running).ok)
            && (st.reply == Done ==>
                  path in st.world.files && st.world.files[path] == script
                  && Exists(st.world, s.logFile)
                  && conf in st.world.files && st.world.files[conf] == LogrotateConf(s.name)
                  && SameOutside(w.(registered := true), st.world, {path, Dir(s.logFile), s.logFile, conf}))
            && (st.reply != Done ==> st.reply.Failed? && st.reply.err.Wrapped? && st.reply.err.context == InstallContext)
  {
    var path := ServicePath(s.name);
    match Open(env, w, path) {
      case None =>
      case Some(w1) =>
        match Write(env, w1, path, script) {
          case None =>
          case Some(w2) =>
            assert w2 == w.(files := w.files[path := script]);
            RegisterSucceeds(s, env, w2);
            var st := Register(s, env, w2);
            if st.reply == Done {
              var x := {Dir(s.logFile), s.logFile, LogrotatePath(s.name)};
              assert SameOutside(w.(registered := true), w2.(registered := true), {path});
              SameOutsideTrans(w.(registered := true), w2.(registered := true), st.world, {path}, x);
              assert {path} + x == {path, Dir(s.logFile), s.logFile, LogrotatePath(s.name)};
            }
        }
    }
  }

  lemma RegisterSucceeds(s: Spec, env: Env, w: World)
    requires ServicePath(s.name) in w.files
    ensures var st, path, conf := Register(s, env, w), ServicePath(s.name), LogrotatePath(s.name);
            (st.reply == Done <==>
               LogRotateStep(s, env, w).reply == Done && env.run(AddArgv(s.name), w.running).ok)
            && (st.reply == Done ==>
                  path in st.world.files && st.world.files[path] == w.files[path]
                  && Exists(st.world, s.logFile)
                  && conf in st.world.files && st.world.files[conf] == LogrotateConf(s.name)
                  && SameOutside(w.(registered := true), st.world, {Dir(s.logFile), s.logFile, conf}))
            && (st.reply != Done ==> st.reply.Failed? && st.reply.err.Wrapped? && st.reply.err.context == InstallContext)
  {
    LogFileGrows(s.logFile, env, w);
    LogRotateOutcome(s, env, w);
    PathsDistinct(s.name);
  }

  /** configLogRoate does not depend on the executable. */
  lemma LogRotateIgnoresExec(s: Spec, e: string, env: Env, w: World)
    ensures LogRotateStep(s.(exec := e), env, w) == LogRotateStep(s, env, w)
  {
  }

  /** After a successful Install a second one is refused as already
      installed and changes nothing. */
  lemma InstallTwice(s: Spec, env: Env, w: World)
    requires InstallStep(s, env, w).0.reply == Done
    ensures var (st, e) := InstallStep(s, env, w);
            InstallStep(s.(exec := e), env, st.world) == (Step(Fail(InstallContext, AlreadyInstalled), st.world), e)
  {
    InstallSucceeds(s, env, w);
  }

  /** A failed Install removes the init script again (where the host
      allows it), but the log file, its directory and, when chkconfig is
      what failed, the logrotate configuration stay behind; nothing else
      changes. This needs the script's path to differ from the configured
      log file and its directory. */
  lemma InstallFailureResidue(s: Spec, env: Env, w: World)
    requires !env.refuses(Delete(ServicePath(s.name)))
    requires !Exists(w, LogrotatePath(s.name))
    requires ServicePath(s.name) != s.logFile && ServicePath(s.name) != Dir(s.logFile)
    ensures var st := InstallStep(s, env, w).0;
            st.reply.Failed? ==>
              !Exists(st.world, ServicePath(s.name)) || Exists(w, ServicePath(s.name))
    ensures var st := InstallStep(s, env, w).0;
            st.reply.Failed? && !Exists(w, ServicePath(s.name)) ==>
              Grows(w, st.world, {Dir(s.logFile), s.logFile, LogrotatePath(s.name)})
  {
    var path := ServicePath(s.name);
    if PrivilegesAt(env, w) == Done && !Exists(w, path) && env.resolve(s.exec).Some? {
      var t := s.(exec := env.resolve(s.exec).value);
      WriteScriptFailureResidue(t, InitScript(t), env, w);
    }
  }

  lemma WriteScriptFailureResidue(s: Spec, script: string, env: Env, w: World)
    requires !Exists(w, ServicePath(s.name)) && !env.refuses(Delete(ServicePath(s.name)))
    requires !Exists(w, LogrotatePath(s.name))
    requires ServicePath(s.name) != s.logFile && ServicePath(s.name) != Dir(s.logFile)
    ensures var st := WriteScript(s, script, env, w);
            st.reply.Failed? ==>
              !Exists(st.world, ServicePath(s.name))
              && Grows(w, st.world, {Dir(s.logFile), s.logFile, LogrotatePath(s.name)})
  {
    var path := ServicePath(s.name);
    var st := WriteScript(s, script, env, w);
    match Open(env, w, path) {
      case None =>
        assert st.world == w;
      case Some(w1) =>
        RemoveUndoesCreate(env, w, path, "");
        match Write(env, w1, path, script) {
          case None =>
            assert st.world == w;
          case Some(w2) =>
            assert Grows(w, w2, {path});
            RegisterFailureResidue(s, env, w, w2);
        }
    }
  }

  lemma RegisterFailureResidue(s: Spec, env: Env, w: World, w2: World)
    requires !Exists(w, ServicePath(s.name)) && !env.refuses(Delete(ServicePath(s.name)))
    requires !Exists(w, LogrotatePath(s.name))
    requires ServicePath(s.name) != s.logFile && ServicePath(s.name) != Dir(s.logFile)
    requires Grows(w, w2, {ServicePath(s.name)})
    ensures var st := Register(s, env, w2);
            st.reply.Failed? ==>
              !Exists(st.world, ServicePath(s.name))
              && Grows(w, st.world, {Dir(s.logFile), s.logFile, LogrotatePath(s.name)})
  {
    var path := ServicePath(s.name);
    PathsDistinct(s.name);
    LogRotateGrows(s, env, w2);
    GrowsThenUndo(env, w, path, w2, LogRotateStep(s, env, w2).world, {Dir(s.logFile), s.logFile, LogrotatePath(s.name)});
  }

  /** Enable succeeds exactly when the caller is privileged, the script is
      installed and `chkconfig --add` succeeds, and then only registers the
      service; Disable likewise with `chkconfig --del`. */
  lemma EnableDisableOutcome(s: Spec, env: Env, w: World)
    ensures var st, ok := EnableStep(s, env, w), PrivilegesAt(env, w) == Done && Exists(w, ServicePath(s.name));
            (st.reply == Done <==> ok && env.run(AddArgv(s.name), w.running).ok)
            && st.world == if st.reply == Done then w.(registered := true) else w
    ensures var st, ok := DisableStep(s, env, w), PrivilegesAt(env, w) == Done && Exists(w, ServicePath(s.name));
            (st.reply == Done <==> ok && env.run(DelArgv(s.name), w.running).ok)
            && st.world == if st.reply == Done then w.(registered := false) else w
  {
  }

  /** Remove succeeds exactly when the caller is privileged, the script is
      installed, `service <name> stop` and `chkconfig --del` succeed and
      both the script and the logrotate configuration can be removed;
      then the service is stopped, unregistered and both files are gone. */
  lemma RemoveOutcome(s: Spec, env: Env, w: World)
    ensures var st, path, conf := RemoveStep(s, env, w), ServicePath(s.name), LogrotatePath(s.name);
            (st.reply == Done <==>
               PrivilegesAt(env, w) == Done && Exists(w, path)
               && env.run(ServiceArgv(s.name, "stop"), w.running).ok
               && env.run(DelArgv(s.name), false).ok
               && !env.refuses(Delete(path))
               && Exists(w, conf) && !env.refuses(Delete(conf)))
            && (st.reply == Done ==>
                  !Exists(st.world, path) && !Exists(st.world, conf)
                  && !st.world.running && !st.world.registered)
            && (st.reply != Done ==> st.reply.Failed? && st.reply.err.Wrapped? && st.reply.err.context == RemoveContext)
  {
    PathsDistinct(s.name);
  }

  /** Where Remove stops and what it leaves: the guards change nothing; a
      failing `service <name> stop` leaves the host as it was; a failing
      `chkconfig --del` leaves the service stopped but registered; an init
      script that cannot be removed leaves it stopped and unregistered, the
      script still there; past that, only the script and the logrotate
      configuration change, and the script is gone. */
  lemma RemoveAborts(s: Spec, env: Env, w: World)
    ensures var st, priv, path, conf := RemoveStep(s, env, w), PrivilegesAt(env, w), ServicePath(s.name), LogrotatePath(s.name);
            var stop, del := ServiceArgv(s.name, "stop"), DelArgv(s.name);
            var ready := priv == Done && Exists(w, path);
            (priv.Failed? ==> st == Step(Fail(RemoveContext, priv.err), w))
            && (priv == Done && !Exists(w, path) ==> st == Step(Fail(RemoveContext, NotInstalled), w))
            && (ready && !env.run(stop, w.running).ok ==> st == Step(Fail(RemoveContext, Exec(stop)), w))
            && (ready && env.run(stop, w.running).ok && !env.run(del, false).ok ==>
                  st == Step(Fail(RemoveContext, Exec(del)), w.(running := false)))
            && (ready && env.run(stop, w.running).ok && env.run(del, false).ok && env.refuses(Delete(path)) ==>
                  st == Step(Fail(RemoveContext, Fs("remove", path)), w.(running := false, registered := false)))
            && (ready && env.run(stop, w.running).ok && env.run(del, false).ok && !env.refuses(Delete(path)) ==>
                  !Exists(st.world, path)
                  && SameOutside(w.(running := false, registered := false), st.world, {path, conf}))
  {
    PathsDistinct(s.name);
  }

  /** Remove insists on the logrotate configuration: when it is missing,
      Remove fails although the service is already stopped, unregistered
      and its init script deleted. */
  lemma RemoveWithoutLogrotateConf(s: Spec, env: Env, w: World)
    requires PrivilegesAt(env, w) == Done && Exists(w, ServicePath(s.name))
    requires env.run(ServiceArgv(s.name, "stop"), w.running).ok && env.run(DelArgv(s.name), false).ok
    requires !env.refuses(Delete(ServicePath(s.name)))
    requires !Exists(w, LogrotatePath(s.name))
    ensures var st := RemoveStep(s, env, w);
            st.reply == Fail(RemoveContext, Fs("remove", LogrotatePath(s.name)))
            && !Exists(st.world, ServicePath(s.name)) && !st.world.running && !st.world.registered
  {
    PathsDistinct(s.name);
  }

  /** Start runs without the privilege check that Install, Enable, Disable
      and Remove make. */
  lemma StartWithoutPrivileges(s: Spec, env: Env, w: World)
    requires PrivilegesAt(env, w).Failed?
    requires Exists(w, ServicePath(s.name)) && Exists(w, s.logFile)
    requires !IsRunning(env, s.name, w.running) && env.run(ServiceArgv(s.name, "start"), w.running).ok
    ensures StartStep(s, env, w) == Step(Done, w.(running := true))
  {
  }

  /** Start's guards in order (installed, not running; no privilege
      check), then the log file, then `service <name> start`. It only ever
      adds the log file and its directory, and sets the service running
      exactly when it succeeds. */
  lemma StartOutcome(s: Spec, env: Env, w: World)
    ensures var st, path, log := StartStep(s, env, w), ServicePath(s.name), LogFileStep(s.logFile, env, w);
            (!Exists(w, path) ==> st == Step(Fail(StartContext, NotInstalled), w))
            && (Exists(w, path) && IsRunning(env, s.name, w.running) ==> st == Step(Fail(StartContext, AlreadyRunning), w))
            && (st.reply == Done <==>
                  Exists(w, path) && !IsRunning(env, s.name, w.running)
                  && log.reply == Done && env.run(ServiceArgv(s.name, "start"), w.running).ok)
            && (st.reply == Done ==> st.world == log.world.(running := true) && Exists(st.world, s.logFile))
            && (st.reply != Done ==> st.reply.Failed? && st.reply.err.Wrapped? && st.reply.err.context == StartContext)
            && st.world.running == (st.reply == Done || w.running)
            && Grows(w, st.world.(running := w.running), {Dir(s.logFile), s.logFile})
  {
    LogFileGrows(s.logFile, env, w);
  }

  /** Stop's guards in order (installed, running; no privilege check),
      then `service <name> stop`; only a successful stop changes the host,
      and only its run state. */
  lemma StopOutcome(s: Spec, env: Env, w: World)
    ensures var st, path := StopStep(s, env, w), ServicePath(s.name);
            (!Exists(w, path) ==> st == Step(Fail(StopContext, NotInstalled), w))
            && (Exists(w, path) && !IsRunning(env, s.name, w.running) ==> st == Step(Fail(StopContext, AlreadyStopped), w))
            && (st.reply == Done <==>
                  Exists(w, path) && IsRunning(env, s.name, w.running)
                  && env.run(ServiceArgv(s.name, "stop"), w.running).ok)
            && st.world == if st.reply == Done then w.(running := false) else w
  {
  }

  /** Start followed by Stop: when `service <name> status` then reports the
      service and `service <name> stop` succeeds, a second Start is refused
      as already running, Stop succeeds, and the host ends stopped with at
      most the log file and its directory added; when the status command no
      longer reports the stopped service, a second Stop is refused as
      already stopped. */
  lemma StartStopCycle(s: Spec, env: Env, w: World)
    requires StartStep(s, env, w).reply == Done
    requires IsRunning(env, s.name, true) && env.run(ServiceArgv(s.name, "stop"), true).ok
    ensures var w1 := StartStep(s, env, w).world;
            var st := StopStep(s, env, w1);
            w1.running
            && StartStep(s, env, w1) == Step(Fail(StartContext, AlreadyRunning), w1)
            && st == Step(Done, w1.(running := false))
            && st.world.registered == w.registered
            && Grows(w.(running := false), st.world, {Dir(s.logFile), s.logFile})
            && (!IsRunning(env, s.name, false) ==>
                  StopStep(s, env, st.world) == Step(Fail(StopContext, AlreadyStopped), st.world))
  {
    LogFileGrows(s.logFile, env, w);
  }

  /** Status and isRunning agree for an installed service: Status shows it
      running exactly when isRunning holds, stopped exactly when the status
      command fails, and the command's output otherwise. */
  lemma StatusAgreesWithIsRunning(s: Spec, env: Env, w: World)
    requires Exists(w, ServicePath(s.name))
    ensures var r, out := StatusReply(s, env, w), env.run(ServiceArgv(s.name, "status"), w.running);
            r.Shown?
            && (r.report.Running? <==> IsRunning(env, s.name, w.running))
            && (r.report == Stopped <==> !out.ok)
            && (r.report.Raw? <==> out.ok && !Contains(out.output, s.name))
  {
  }

  /** Log fails only for an uninstalled service or a log file that cannot be
      made; afterwards the log file exists. */
  lemma LogOutcome(s: Spec, env: Env, w: World)
    ensures var st := LogStep(s, env, w);
            (st.reply == Done <==> Exists(w, ServicePath(s.name)) && LogFileStep(s.logFile, env, w).reply == Done)
            && (st.reply == Done ==> Exists(st.world, s.logFile))
            && Grows(w, st.world, {Dir(s.logFile), s.logFile})
  {
    LogFileGrows(s.logFile, env, w);
  }

  /** The systemv backend over a shared `config`. */
  class Backend {
    const c: Config

    constructor (c: Config)
      ensures this.c == c
    {
      this.c := c;
    }

    method ConfigLogFile(env: Env, w: World) returns (r: Reply, w': World)
      ensures Step(r, w') == LogFileStep(c.logFile, env, w)
    {
      var file := c.logFile;
      if Exists(w, file) {
        return Done, w;
      }
      var dir := Dir(file);
      w' := w;
      var madeDir := false;
      if !Exists(w, dir) {
        var made := Mkdir(env, w, dir);
        if made.None? {
          return Failed(Fs("mkdir", dir)), w;
        }
        w', madeDir := made.value, true;
      }
      var created := Create(env, w', file);
      if created.None? {
        r := Failed(Fs("create", file));
        if madeDir {
          w' := RemoveQuietly(env, w', dir);
        }
        return;
      }
      return Done, created.value;
    }

    method ConfigLogRotate(env: Env, w: World) returns (r: Reply, w': World)
      ensures Step(r, w') == LogRotateStep(c.Value(), env, w)
    {
      r, w' := ConfigLogFile(env, w);
      if r.Failed? {
        return;
      }
      r := Command(env, w', ChownArgv(c.Value()));
      if r.Failed? {
        return;
      }
      var conf := LogrotatePath(c.name);
      var made := Open(env, w', conf);
      if made.None? {
        return Failed(Fs("open", conf)), w';
      }
      w' := made.value;
      var written := Write(env, w', conf, LogrotateConf(c.name));
      if written.None? {
        return Failed(Fs("write", conf)), RemoveQuietly(env, w', conf);
      }
      return Done, written.value;
    }

    method Install(env: Env, w: World) returns (r: Reply, w': World)
      modifies c`exec
      ensures (Step(r, w'), c.exec) == InstallStep(old(c.Value()), env, w)
      ensures c.Value() == old(c.Value()).(exec := c.exec)
    {
      var path := ServicePath(c.name);
      var priv := PrivilegesAt(env, w);
      if priv.Failed? {
        return Fail(InstallContext, priv.err), w;
      }
      if Exists(w, path) {
        return Fail(InstallContext, AlreadyInstalled), w;
      }
      var exec := c.exec;
      var resolved := env.resolve(exec);
      if resolved.None? {
        c.exec := "";
        return Fail(InstallContext, NotFound(exec)), w;
      }
      c.exec := resolved.value;
      var made := Open(env, w, path);
      if made.None? {
        return Fail(InstallContext, Fs("open", path)), w;
      }
      w' := made.value;
      var written := Write(env, w', path, InitScript(c.Value()));
      if written.None? {
        return Fail(InstallContext, Fs("write", path)), RemoveQuietly(env, w', path);
      }
      r, w' := ConfigLogRotate(env, written.value);
      if r.Failed? {
        return Fail(InstallContext, r.err), RemoveQuietly(env, w', path);
      }
      r := Command(env, w', AddArgv(c.name));
      if r.Failed? {
        return Fail(InstallContext, r.err), RemoveQuietly(env, w', path);
      }
      w' := w'.(registered := true);
    }

    method Enable(env: Env, w: World) returns (r: Reply, w': World)
      ensures Step(r, w') == EnableStep(c.Value(), env, w)
    {
      var priv := PrivilegesAt(env, w);
      if priv.Failed? {
        return Fail(EnableContext, priv.err), w;
      }
      if !Exists(w, ServicePath(c.name)) {
        return Fail(EnableContext, NotInstalled), w;
      }
      r := Command(env, w, AddArgv(c.name));
      if r.Failed? {
        return Fail(EnableContext, r.err), w;
      }
      w' := w.(registered := true);
    }

    method Disable(env: Env, w: World) returns (r: Reply, w': World)
      ensures Step(r, w') == DisableStep(c.Value(), env, w)
    {
      var priv := PrivilegesAt(env, w);
      if priv.Failed? {
        return Fail(DisableContext, priv.err), w;
      }
      if !Exists(w, ServicePath(c.name)) {
        return Fail(DisableContext, NotInstalled), w;
      }
      r := Command(env, w, DelArgv(c.name));
      if r.Failed? {
        return Fail(DisableContext, r.err), w;
      }
      w' := w.(registered := false);
    }

    method Remove(env: Env, w: World) returns (r: Reply, w': World)
      ensures Step(r, w') == RemoveStep(c.Value(), env, w)
    {
      var path, conf := ServicePath(c.name), LogrotatePath(c.name);
      var priv := PrivilegesAt(env, w);
      if priv.Failed? {
        return Fail(RemoveContext, priv.err), w;
      }
      if !Exists(w, path) {
        return Fail(RemoveContext, NotInstalled), w;
      }
      r := Command(env, w, ServiceArgv(c.name, "stop"));
      if r.Failed? {
        return Fail(RemoveContext, r.err), w;
      }
      w' := w.(running := false);
      r := Command(env, w', DelArgv(c.name));
      if r.Failed? {
        return Fail(RemoveContext, r.err), w';
      }
      w' := w'.(registered := false);
      var removed := Host.Remove(env, w', path);
      if removed.None? {
        return Fail(RemoveContext, Fs("remove", path)), w';
      }
      w' := removed.value;
      removed := Host.Remove(env, w', conf);
      if removed.None? {
        return Fail(RemoveContext, Fs("remove", conf)), w';
      }
      return Done, removed.value;
    }

    method Start(env: Env, w: World) returns (r: Reply, w': World)
      ensures Step(r, w') == StartStep(c.Value(), env, w)
    {
      if !Exists(w, ServicePath(c.name)) {
        return Fail(StartContext, NotInstalled), w;
      }
      if IsRunning(env, c.name, w.running) {
        return Fail(StartContext, AlreadyRunning), w;
      }
      r, w' := ConfigLogFile(env, w);
      if r.Failed? {
        return Fail(StartContext, r.err), w';
      }
      r := Command(env, w', ServiceArgv(c.name, "start"));
      if r.Failed? {
        return Fail(StartContext, r.err), w';
      }
      w' := w'.(running := true);
    }

    method Stop(env: Env, w: World) returns (r: Reply, w': World)
      ensures Step(r, w') == StopStep(c.Value(), env, w)
    {
      if !Exists(w, ServicePath(c.name)) {
        return Fail(StopContext, NotInstalled), w;
      }
      if !IsRunning(env, c.name, w.running) {
        return Fail(StopContext, AlreadyStopped), w;
      }
      r := Command(env, w, ServiceArgv(c.name, "stop"));
      if r.Failed? {
        return Fail(StopContext, r.err), w;
      }
      w' := w.(running := false);
    }

    method Status(env: Env, w: World) returns (r: Reply)
      ensures r == StatusReply(c.Value(), env, w)
    {
      if !Exists(w, ServicePath(c.name)) {
        return Fail(StatusContext, NotInstalled);
      }
      var out := env.run(ServiceArgv(c.name, "status"), w.running);
      if !out.ok {
        return Shown(Stopped);
      }
      if Contains(out.output, c.name) {
        r := Shown(Running(DigitsAfter(out.output, "pid  ")));
      } else {
        r := Shown(Raw(out.output));
      }
    }

    method Log(env: Env, w: World) returns (r: Reply, w': World)
      ensures Step(r, w') == LogStep(c.Value(), env, w)
    {
      if !Exists(w, ServicePath(c.name)) {
        return Fail(LogContext, NotInstalled), w;
      }
      r, w' := ConfigLogFile(env, w);
      if r.Failed? {
        return Fail(LogContext, r.err), w';
      }
    }
  }
}
