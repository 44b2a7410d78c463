/** The supervisord backend (supervisord.go): a program section under
    /etc/supervisor/conf.d, a log file under /var/log and the supervisorctl
    commands. */
module Supervisord {
  import opened Errors
  import opened Text
  import opened Host
  import opened Options
  import opened Detect

  function ServicePath(name: string): string
  {
    "/etc/supervisor/conf.d/" + name + ".ini"
  }

  /** The log directory that configLogFile prepares (written with a
      trailing slash in the source). */
  function LogDir(name: string): string
  {
    "/var/log/" + name
  }

  /** The log file that configLogFile prepares. */
  function LogPath(name: string): string
  {
    LogDir(name) + "/" + name + ".log"
  }

  const RereadArgv: seq<string> := ["supervisorctl", "reread"]
  function AddArgv(name: string): seq<string> { ["supervisorctl", "add", name] }
  function RemoveArgv(name: string): seq<string> { ["supervisorctl", "remove", name] }
  function StartArgv(name: string): seq<string> { ["supervisorctl", "start", name] }
  function StopArgv(name: string): seq<string> { ["supervisorctl", "stop", name] }
  function StatusArgv(name: string): seq<string> { ["supervisorctl", "status", name] }
  function TailArgv(name: string): seq<string> { ["supervisorctl", "tail", "-f", name] }

  /** supervisordScript rendered for `s`, line by line. */
  function IniLines(s: Spec): seq<string>
  {
    ["[program:" + s.name + "]", "directory=" + s.workDir, "command=" + s.exec + " " + s.args,
     "autostart=true", "autorestart=unexpected", "exitcodes=0", "redirect_stderr=true",
     "stdout_logfile_maxbytes=50MB", "stdout_logfile_backups=10", "stdout_logfile=" + s.logFile, ""]
  }

  function IniFile(s: Spec): string
  {
    JoinLines(IniLines(s))
  }

  /** The program section is named after the service and sets the working
      directory, the command line "<exec> <args>" and the configured log
      file. */
  lemma IniFileLines(s: Spec)
    ensures var f := IniFile(s);
            StartsWith(f, "[program:" + s.name + "]\n")
            && HasLine(f, "directory=" + s.workDir)
            && HasLine(f, "command=" + s.exec + " " + s.args)
            && HasLine(f, "stdout_logfile=" + s.logFile)
  {
    var ls := IniLines(s);
    FirstLineOfJoin(ls);
    LineInJoin(ls, 1);
    LineInJoin(ls, 2);
    LineInJoin(ls, 9);
  }

  /** The section does not depend on the description, dependencies, user,
      group, pid file or lock file. */
  lemma IniFileIgnores(s: Spec, t: Spec)
    requires s.name == t.name && s.workDir == t.workDir && s.exec == t.exec
    requires s.args == t.args && s.logFile == t.logFile
    ensures IniFile(s) == IniFile(t)
  {
  }

  /** isRunning: `supervisorctl status` succeeds and mentions RUNNING or
      STARTING. */
  function IsRunning(env: Env, name: string, running: bool): bool
  {
    IsRunningOutput(env.run(StatusArgv(name), running))
  }

  predicate IsRunningOutput(out: Run)
  {
    out.ok && (Contains(out.output, "RUNNING") || Contains(out.output, "STARTING"))
  }

  /** configLogFile: nothing to do when the log file exists; otherwise the
      log directory is made if missing, then the file is created. */
  function LogFileStep(name: string, env: Env, w: World): Step
  {
    var dir, file := LogDir(name), LogPath(name);
    if Exists(w, file) then Step(Done, w)
    else
      var made := if Exists(w, dir) then Some(w) else Mkdir(env, w, dir);
      match made
      case None => Step(Failed(Fs("mkdir", dir)), w)
      case Some(w1) =>
        match Create(env, w1, file)
        case None => Step(Failed(Fs("create", file)), w1)
        case Some(w2) => Step(Done, w2)
  }

  /** configLogFile only ever adds the log directory and the log file, and
      when it succeeds the log file is there. */
  lemma LogFileReady(name: string, env: Env, w: World)
    ensures var st := LogFileStep(name, env, w);
            Grows(w, st.world, {LogDir(name), LogPath(name)})
            && (st.reply == Done ==> Exists(st.world, LogPath(name)))
            && (st.reply == Done || st.reply.Failed?)
  {
  }

  /** Once configLogFile has succeeded, calling it again changes nothing. */
  lemma LogFileIdempotent(name: string, env: Env, w: World)
    requires LogFileStep(name, env, w).reply == Done
    ensures var w' := LogFileStep(name, env, w).world;
            LogFileStep(name, env, w') == Step(Done, w')
  {
    LogFileReady(name, env, w);
  }

  function InstallFailed(e: Error): Reply
  {
    Failed(Wrapped("failed to install", e))
  }

  /** Install: the checks, the executable lookup (which overwrites Exec,
      with "" on failure), then the program section. The second component
      is the new Exec. */
  function InstallStep(s: Spec, env: Env, w: World): (Step, string)
  {
    var priv := PrivilegesAt(env, w);
    if priv.Failed? then (Step(InstallFailed(priv.err), w), s.exec)
    else if Exists(w, ServicePath(s.name)) then (Step(InstallFailed(AlreadyInstalled), w), s.exec)
    else match env.resolve(s.exec)
      case None => (Step(InstallFailed(NotFound(s.exec)), w), "")
      case Some(exec) => (WriteIni(s.(exec := exec), env, w), exec)
  }

  /** The part of Install from the OpenFile on: each failure after the
      file is opened removes the section again (but not the log). */
  function WriteIni(s: Spec, env: Env, w: World): Step
  {
    var path := ServicePath(s.name);
    match Open(env, w, path)
    case None => Step(InstallFailed(Fs("open", path)), w)
    case Some(w1) =>
      match Write(env, w1, path, IniFile(s))
      case None => Step(InstallFailed(Fs("write", path)), RemoveQuietly(env, w1, path))
      case Some(w2) => Register(s, env, w2)
  }

  /** The rest of Install once the section is written: the log file, then
      `supervisorctl reread` and `supervisorctl add`. The section sets
      autostart=true, so a successful `add` also starts the program. */
  function Register(s: Spec, env: Env, w: World): Step
  {
    var path := ServicePath(s.name);
    var log := LogFileStep(s.name, env, w);
    var w1 := log.world;
    if log.reply.Failed? then Step(InstallFailed(log.reply.err), RemoveQuietly(env, w1, path))
    else
      var reread := Command(env, w1, RereadArgv);
      if reread.Failed? then Step(InstallFailed(reread.err), RemoveQuietly(env, w1, path))
      else
        var add := Command(env, w1, AddArgv(s.name));
        if add.Failed? then Step(InstallFailed(add.err), RemoveQuietly(env, w1, path))
        else Step(Done, w1.(registered := true, running := true))
  }

  function StopStep(s: Spec, env: Env, w: World): Step
  {
    var priv := PrivilegesAt(env, w);
    if priv.Failed? then Step(priv, w)
    else if !Exists(w, ServicePath(s.name)) then Step(Failed(NotInstalled), w)
    else if !IsRunning(env, s.name, w.running) then Step(Failed(AlreadyStopped), w)
    else
      var r := Command(env, w, StopArgv(s.name));
      Step(r, if r.Done? then w.(running := false) else w)
  }

  /** Start: the checks, the log file, then `supervisorctl start`. */
  function StartStep(s: Spec, env: Env, w: World): Step
  {
    var priv := PrivilegesAt(env, w);
    if priv.Failed? then Step(priv, w)
    else if !Exists(w, ServicePath(s.name)) then Step(Failed(NotInstalled), w)
    else if IsRunning(env, s.name, w.running) then Step(Failed(AlreadyRunning), w)
    else
      var log := LogFileStep(s.name, env, w);
      if log.reply.Failed? then log
      else
        var r := Command(env, log.world, StartArgv(s.name));
        Step(r, if r.Done? then log.world.(running := true) else log.world)
  }

  /** Remove: after the checks, a best-effort stop, `supervisorctl remove`,
      deletion of the section and `supervisorctl reread`; it then succeeds
      whatever those gave. */
  function RemoveStep(s: Spec, env: Env, w: World): Step
  {
    var path := ServicePath(s.name);
    var priv := PrivilegesAt(env, w);
    if priv.Failed? then Step(priv, w)
    else if !Exists(w, path) then Step(Failed(NotInstalled), w)
    else
      var w1 := StopStep(s, env, w).world;
      var w2 := if Command(env, w1, RemoveArgv(s.name)).Done? then w1.(registered := false) else w1;
      Step(Done, RemoveQuietly(env, w2, path))
  }

  /** What Status prints for the output of `supervisorctl status`: the
      leftmost of STARTING, RUNNING and STOPPED decides; a failing command
      counts as stopped, and an output naming none of them prints nothing. */
  function StatusReport(out: Run): Report
  {
    if !out.ok then Stopped
    else
      var stat := Leftmost(out.output, ["STARTING", "RUNNING", "STOPPED"]);
      if stat == "STARTING" then Starting
      else if stat == "RUNNING" then Running(DigitsAfter(out.output, "pid "))
      else if stat == "STOPPED" then Stopped
      else Silent
  }

  function StatusReply(s: Spec, env: Env, w: World): Reply
  {
    var priv := PrivilegesAt(env, w);
    if priv.Failed? then priv
    else if !Exists(w, ServicePath(s.name)) then Failed(NotInstalled)
    else Shown(StatusReport(env.run(StatusArgv(s.name), w.running)))
  }

  /** Log: installed, the log file, then the outcome of `supervisorctl tail -f`. */
  function LogStep(s: Spec, env: Env, w: World): Step
  {
    if !Exists(w, ServicePath(s.name)) then Step(Failed(NotInstalled), w)
    else
      var log := LogFileStep(s.name, env, w);
      if log.reply.Failed? then log
      else Step(Command(env, log.world, TailArgv(s.name)), log.world)
  }

  /** The guards of Install come first and leave the host alone: the
      privilege check, then an existing section, then the executable lookup,
      whose failure clears Exec. */
  lemma InstallGuards(s: Spec, env: Env, w: World)
    ensures PrivilegesAt(env, w).Failed? ==>
              InstallStep(s, env, w) == (Step(InstallFailed(PrivilegesAt(env, w).err), w), s.exec)
    ensures PrivilegesAt(env, w) == Done && Exists(w, ServicePath(s.name)) ==>
              InstallStep(s, env, w) == (Step(InstallFailed(AlreadyInstalled), w), s.exec)
    ensures PrivilegesAt(env, w) == Done && !Exists(w, ServicePath(s.name)) && env.resolve(s.exec).None? ==>
              InstallStep(s, env, w) == (Step(InstallFailed(NotFound(s.exec)), w), "")
  {
  }

  /** Install succeeds exactly when every step does; then the section holds
      the template rendered with the resolved executable, the log file is
      there, the program is added and nothing else changed. */
  lemma InstallSucceeds(s: Spec, env: Env, w: World)
    ensures var (st, e) := InstallStep(s, env, w);
            var path := ServicePath(s.name);
            (st.reply == Done <==>
               PrivilegesAt(env, w) == Done && !Exists(w, path) && env.resolve(s.exec).Some?
               && !env.refuses(OpenTrunc(path)) && !env.refuses(WriteText(path))
               && LogFileStep(s.name, env, w).reply == Done
               && env.run(RereadArgv, w.running).ok && env.run(AddArgv(s.name), w.running).ok)
            && (st.reply == Done ==>
                  e == env.resolve(s.exec).value
                  && path in st.world.files && st.world.files[path] == IniFile(s.(exec := e))
                  && HasLine(st.world.files[path], "command=" + e + " " + s.args)
                  && Exists(st.world, LogPath(s.name))
                  && Grows(w.(registered := true, running := true), st.world, {path, LogDir(s.name), LogPath(s.name)}))
            && (st.reply != Done ==> st.reply.Failed? && st.reply.err.Wrapped?)
  {
    var (st, e) := InstallStep(s, env, w);
    var path := ServicePath(s.name);
    if PrivilegesAt(env, w) == Done && !Exists(w, path) && env.resolve(s.exec).Some? {
      var t := s.(exec := e);
      WriteIniSucceeds(t, env, w);
      IniFileLines(t);
    }
  }

  /** configLogFile does not look at any file but its own two paths. */
  lemma LogFileIgnoresWrite(name: string, env: Env, w: World, p: string, text: string)
    requires p != LogDir(name) && p != LogPath(name)
    ensures LogFileStep(name, env, w.(files := w.files[p := text])).reply == LogFileStep(name, env, w).reply
  {
  }

  lemma WriteIniSucceeds(s: Spec, env: Env, w: World)
    requires !Exists(w, ServicePath(s.name))
    ensures var st, path := WriteIni(s, env, w), ServicePath(s.name);
            (st.reply == Done <==>
               !env.refuses(OpenTrunc(path)) && !env.refuses(WriteText(path))
               && LogFileStep(s.name, env, w).reply == Done
               && env.run(RereadArgv, w.running).ok && env.run(AddArgv(s.name), w.running).ok)
            && (st.reply == Done ==>
                  path in st.world.files && st.world.files[path] == IniFile(s)
                  && Exists(st.world, LogPath(s.name))
                  && Grows(w.(registered := true, running := true), st.world, {path, LogDir(s.name), LogPath(s.name)}))
            && (st.reply != Done ==> st.reply.Failed? && st.reply.err.Wrapped?)
  {
    var path := ServicePath(s.name);
    PathsDistinct(s.name);
    match Open(env, w, path) {
      case None =>
      case Some(w1) =>
        match Write(env, w1, path, IniFile(s)) {
          case None =>
          case Some(w2) =>
            assert w2 == w.(files := w.files[path := IniFile(s)]);
            LogFileIgnoresWrite(s.name, env, w, path, IniFile(s));
            RegisterSucceeds(s, env, w2);
            var st := Register(s, env, w2);
            if st.reply == Done {
              GrowsTrans(w.(registered := true, running := true), w2.(registered := true, running := true), st.world, {path}, {LogDir(s.name), LogPath(s.name)});
            }
        }
    }
  }

  lemma RegisterSucceeds(s: Spec, env: Env, w: World)
    requires ServicePath(s.name) in w.files
    ensures var st, path := Register(s, env, w), ServicePath(s.name);
            (st.reply == Done <==>
               LogFileStep(s.name, env, w).reply == Done
               && env.run(RereadArgv, w.running).ok && env.run(AddArgv(s.name), w.running).ok)
            && (st.reply == Done ==>
                  path in st.world.files && st.world.files[path] == w.files[path]
                  && Exists(st.world, LogPath(s.name))
                  && Grows(w.(registered := true, running := true), st.world, {LogDir(s.name), LogPath(s.name)}))
            && (st.reply != Done ==> st.reply.Failed? && st.reply.err.Wrapped?)
  {
    LogFileReady(s.name, env, w);
  }

  /** After a successful Install a second one is refused and changes
      nothing: as already installed when the caller is still privileged
      with the program now running, by the privilege check otherwise. */
  lemma InstallTwice(s: Spec, env: Env, w: World)
    requires InstallStep(s, env, w).0.reply == Done
    ensures var (st, e) := InstallStep(s, env, w);
            var priv := PrivilegesAt(env, w.(running := true));
            InstallStep(s.(exec := e), env, st.world)
              == (Step(InstallFailed(if priv.Failed? then priv.err else AlreadyInstalled), st.world), e)
  {
    InstallSucceeds(s, env, w);
  }

  /** Since `add` starts the program, a successful Install leaves it
      running, and a Start straight after it is refused as already running
      when `supervisorctl status` reports it and the caller is privileged. */
  lemma InstallStarts(s: Spec, env: Env, w: World)
    requires InstallStep(s, env, w).0.reply == Done
    ensures var (st, e) := InstallStep(s, env, w);
            st.world.running
            && (PrivilegesAt(env, st.world) == Done && IsRunning(env, s.name, true) ==>
                  StartStep(s.(exec := e), env, st.world) == Step(Failed(AlreadyRunning), st.world))
  {
    InstallSucceeds(s, env, w);
  }

  /** A failed Install removes the section again (where the host allows it),
      but the log directory and log file it may have made stay behind;
      nothing else changes. */
  lemma InstallFailureResidue(s: Spec, env: Env, w: World)
    requires !env.refuses(Delete(ServicePath(s.name)))
    ensures var st := InstallStep(s, env, w).0;
            st.reply.Failed? ==>
              !Exists(st.world, ServicePath(s.name)) || Exists(w, ServicePath(s.name))
    ensures var st := InstallStep(s, env, w).0;
            st.reply.Failed? && !Exists(w, ServicePath(s.name)) ==>
              Grows(w, st.world, {LogDir(s.name), LogPath(s.name)})
  {
    var path := ServicePath(s.name);
    if PrivilegesAt(env, w) == Done && !Exists(w, path) && env.resolve(s.exec).Some? {
      WriteIniFailureResidue(s.(exec := env.resolve(s.exec).value), env, w);
    }
  }

  lemma WriteIniFailureResidue(s: Spec, env: Env, w: World)
    requires !Exists(w, ServicePath(s.name)) && !env.refuses(Delete(ServicePath(s.name)))
    ensures var st := WriteIni(s, env, w);
            st.reply.Failed? ==>
              !Exists(st.world, ServicePath(s.name)) && Grows(w, st.world, {LogDir(s.name), LogPath(s.name)})
  {
    var path := ServicePath(s.name);
    var st := WriteIni(s, env, w);
    match Open(env, w, path) {
      case None =>
        assert st.world == w;
      case Some(w1) =>
        RemoveUndoesCreate(env, w, path, "");
        match Write(env, w1, path, IniFile(s)) {
          case None =>
            assert st.world == w;
          case Some(w2) =>
            assert Grows(w, w2, {path});
            RegisterFailureResidue(s, env, w, w2);
        }
    }
  }

  lemma RegisterFailureResidue(s: Spec, env: Env, w: World, w2: World)
    requires !Exists(w, ServicePath(s.name)) && !env.refuses(Delete(ServicePath(s.name)))
    requires Grows(w, w2, {ServicePath(s.name)})
    ensures var st := Register(s, env, w2);
            st.reply.Failed? ==>
              !Exists(st.world, ServicePath(s.name)) && Grows(w, st.world, {LogDir(s.name), LogPath(s.name)})
  {
    var path := ServicePath(s.name);
    LogFileReady(s.name, env, w2);
    PathsDistinct(s.name);
    GrowsThenUndo(env, w, path, w2, LogFileStep(s.name, env, w2).world, {LogDir(s.name), LogPath(s.name)});
  }

  lemma PathsDistinct(name: string)
    ensures ServicePath(name) != LogDir(name) && ServicePath(name) != LogPath(name)
  {
    assert ServicePath(name)[1] == 'e';
    assert LogDir(name)[1] == 'v' && LogPath(name)[1] == 'v';
  }

  /** Remove's guards (privileges, then installed) change nothing; past
      them it always succeeds. The service ends stopped exactly when it was
      stopped already or the stop ran and succeeded, unregistered exactly
      when it was unregistered already or `supervisorctl remove` succeeded, and the
      section is gone whenever the host allows its removal; nothing else
      changes. */
  lemma RemoveBestEffort(s: Spec, env: Env, w: World)
    ensures var path, st, priv := ServicePath(s.name), RemoveStep(s, env, w), PrivilegesAt(env, w);
            (priv.Failed? ==> st == Step(priv, w))
            && (priv == Done && !Exists(w, path) ==> st == Step(Failed(NotInstalled), w))
            && (priv == Done && Exists(w, path) ==>
                  st.reply == Done
                  && st.world.running
                       == (w.running && !(IsRunning(env, s.name, w.running) && env.run(StopArgv(s.name), w.running).ok))
                  && st.world.registered == (w.registered && !env.run(RemoveArgv(s.name), st.world.running).ok)
                  && (!env.refuses(Delete(path)) ==> !Exists(st.world, path))
                  && SameOutside(w.(running := st.world.running, registered := st.world.registered), st.world, {path}))
  {
  }

  /** Status never fails once the checks pass, and whenever it reports the
      program starting or running, isRunning holds as well (both read
      `supervisorctl status`). The converse fails: an output that shows
      STOPPED before RUNNING is reported stopped yet counts as running. */
  lemma StatusAgreesWithIsRunning(s: Spec, env: Env, w: World)
    requires PrivilegesAt(env, w) == Done && Exists(w, ServicePath(s.name))
    ensures var r := StatusReply(s, env, w);
            r.Shown? && (r.report.Starting? || r.report.Running? ==> IsRunning(env, s.name, w.running))
    ensures var r := StatusReply(s, env, w);
            r == Shown(Silent) <==>
              var out := env.run(StatusArgv(s.name), w.running);
              out.ok && !Contains(out.output, "STARTING") && !Contains(out.output, "RUNNING")
              && !Contains(out.output, "STOPPED")
  {
    var out := env.run(StatusArgv(s.name), w.running);
    var words := ["STARTING", "RUNNING", "STOPPED"];
    assert words[0] == "STARTING" && words[1] == "RUNNING" && words[2] == "STOPPED";
    var stat := Leftmost(out.output, words);
    assert stat != "" ==> stat == "STARTING" || stat == "RUNNING" || stat == "STOPPED";
  }

  /** The counterexample to the converse above: any output that shows
      STOPPED first and RUNNING later. */
  lemma StoppedButRunning(b: string)
    ensures var out := Run(true, "STOPPED" + b + "RUNNING");
            StatusReport(out) == Stopped && IsRunningOutput(out)
  {
    var s := "STOPPED" + b + "RUNNING";
    assert s[..7] == "STOPPED";
    assert s[..8][2] == 'O' && s[..7][0] == 'S';
    assert !StartsWith(s, "STARTING") && !StartsWith(s, "RUNNING") && StartsWith(s, "STOPPED");
    var words := ["STARTING", "RUNNING", "STOPPED"];
    assert words[1..][1..] == ["STOPPED"];
    assert FirstAt(s, words) == "STOPPED";
    ContainsInfix("STOPPED" + b, "RUNNING", "");
    assert "STOPPED" + b + "RUNNING" + "" == s;
  }

  /** Stop's guards in order (privileges, installed, running), then
      `supervisorctl stop`; only a successful stop changes the host, and
      only its run state. */
  lemma StopOutcome(s: Spec, env: Env, w: World)
    ensures var st, priv, path := StopStep(s, env, w), PrivilegesAt(env, w), ServicePath(s.name);
            (priv.Failed? ==> st == Step(priv, w))
            && (priv == Done && !Exists(w, path) ==> st == Step(Failed(NotInstalled), w))
            && (priv == Done && Exists(w, path) && !IsRunning(env, s.name, w.running) ==>
                  st == Step(Failed(AlreadyStopped), w))
            && (st.reply == Done <==>
                  priv == Done && Exists(w, path) && IsRunning(env, s.name, w.running)
                  && env.run(StopArgv(s.name), w.running).ok)
            && st.world == if st.reply == Done then w.(running := false) else w
  {
  }

  /** Start's guards in order (privileges, installed, not running), then
      the log file, then `supervisorctl start`. It only ever adds the log
      directory and file, and sets the service running exactly when it
      succeeds. */
  lemma StartOutcome(s: Spec, env: Env, w: World)
    ensures var st, priv, path := StartStep(s, env, w), PrivilegesAt(env, w), ServicePath(s.name);
            var log := LogFileStep(s.name, env, w);
            (priv.Failed? ==> st == Step(priv, w))
            && (priv == Done && !Exists(w, path) ==> st == Step(Failed(NotInstalled), w))
            && (priv == Done && Exists(w, path) && IsRunning(env, s.name, w.running) ==>
                  st == Step(Failed(AlreadyRunning), w))
            && (st.reply == Done <==>
                  priv == Done && Exists(w, path) && !IsRunning(env, s.name, w.running)
                  && log.reply == Done && env.run(StartArgv(s.name), w.running).ok)
            && (st.reply == Done ==> st.world == log.world.(running := true) && Exists(st.world, LogPath(s.name)))
            && st.world.running == (st.reply == Done || w.running)
            && Grows(w, st.world.(running := w.running), {LogDir(s.name), LogPath(s.name)})
  {
    LogFileReady(s.name, env, w);
  }

  /** Start then Stop, where supervisorctl reports the program running
      exactly after it was started: Start succeeds, a second Start is
      refused as already running, Stop succeeds, a second Stop is refused as
      already stopped, and the host ends as before but for the log file. */
  lemma StartStopCycle(s: Spec, env: Env, w: World)
    requires Exists(w, ServicePath(s.name)) && !w.running
    requires PrivilegesAt(env, w) == Done && PrivilegesAt(env, w.(running := true)) == Done
    requires IsRunning(env, s.name, true) && !IsRunning(env, s.name, false)
    requires LogFileStep(s.name, env, w).reply == Done
    requires env.run(StartArgv(s.name), false).ok && env.run(StopArgv(s.name), true).ok
    ensures var w1 := StartStep(s, env, w).world;
            StartStep(s, env, w).reply == Done && w1.running
            && StartStep(s, env, w1).reply == Failed(AlreadyRunning)
            && StopStep(s, env, w1) == Step(Done, w1.(running := false))
            && StopStep(s, env, w1.(running := false)).reply == Failed(AlreadyStopped)
            && Grows(w, w1.(running := false), {LogDir(s.name), LogPath(s.name)})
  {
    StartOutcome(s, env, w);
  }

  /** Log refuses an uninstalled program; otherwise it prepares the log
      file and then gives the outcome of `supervisorctl tail -f`. It only
      ever adds the log directory and file. */
  lemma LogOutcome(s: Spec, env: Env, w: World)
    ensures var st, path, log := LogStep(s, env, w), ServicePath(s.name), LogFileStep(s.name, env, w);
            (st.reply == Failed(NotInstalled) <==> !Exists(w, path))
            && (st.reply == Done <==>
                  Exists(w, path) && log.reply == Done && env.run(TailArgv(s.name), w.running).ok)
            && (Exists(w, path) ==> st.world == log.world)
            && Grows(w, st.world, {LogDir(s.name), LogPath(s.name)})
  {
    LogFileReady(s.name, env, w);
  }

  /** The log file configLogFile prepares is always /var/log/<name>/<name>.log,
      whatever LogFile says, while the section sends output to LogFile. */
  lemma LogFileIgnoresConfig(s: Spec, env: Env, w: World)
    requires StartStep(s, env, w).reply == Done
    ensures Exists(StartStep(s, env, w).world, LogPath(s.name))
  {
    LogFileReady(s.name, env, w);
  }

  /** The backend object: a handle on the shared configuration. */
  class Backend {
    const c: Config

    constructor (c: Config)
      ensures this.c == c
    {
      this.c := c;
    }

    method ConfigLogFile(env: Env, w: World) returns (r: Reply, w': World)
      ensures Step(r, w') == LogFileStep(c.name, env, w)
    {
      var dir, file := LogDir(c.name), LogPath(c.name);
      if Exists(w, file) {
        return Done, w;
      }
      w' := w;
      if !Exists(w', dir) {
        var made := Mkdir(env, w', dir);
        if made.None? {
          return Failed(Fs("mkdir", dir)), w;
        }
        w' := made.value;
      }
      var created := Create(env, w', file);
      if created.None? {
        return Failed(Fs("create", file)), w';
      }
      return Done, created.value;
    }

    method Install(env: Env, w: World) returns (r: Reply, w': World)
      modifies c`exec
      ensures (Step(r, w'), c.exec) == InstallStep(old(c.Value()), env, w)
      ensures c.Value() == old(c.Value()).(exec := c.exec)
    {
      var path := ServicePath(c.name);
      var priv := PrivilegesAt(env, w);
      if priv.Failed? {
        return InstallFailed(priv.err), w;
      }
      if Exists(w, path) {
        return InstallFailed(AlreadyInstalled), w;
      }
      var exec := c.exec;
      var resolved := env.resolve(exec);
      if resolved.None? {
        c.exec := "";
        return InstallFailed(NotFound(exec)), w;
      }
      c.exec := resolved.value;
      var made := Open(env, w, path);
      if made.None? {
        return InstallFailed(Fs("open", path)), w;
      }
      w' := made.value;
      var written := Write(env, w', path, IniFile(c.Value()));
      if written.None? {
        return InstallFailed(Fs("write", path)), RemoveQuietly(env, w', path);
      }
      r, w' := ConfigLogFile(env, written.value);
      if r.Failed? {
        return InstallFailed(r.err), RemoveQuietly(env, w', path);
      }
      r := Command(env, w', RereadArgv);
      if r.Failed? {
        return InstallFailed(r.err), RemoveQuietly(env, w', path);
      }
      r := Command(env, w', AddArgv(c.name));
      if r.Failed? {
        return InstallFailed(r.err), RemoveQuietly(env, w', path);
      }
      w' := w'.(registered := true, running := true);
    }

    /** Enable and Disable do nothing under supervisord. */
    method Enable(env: Env, w: World) returns (r: Reply, w': World)
      ensures r == Done && w' == w
    {
      return Done, w;
    }

    method Disable(env: Env, w: World) returns (r: Reply, w': World)
      ensures r == Done && w' == w
    {
      return Done, w;
    }

    method Remove(env: Env, w: World) returns (r: Reply, w': World)
      ensures Step(r, w') == RemoveStep(c.Value(), env, w)
    {
      var path := ServicePath(c.name);
      var priv := PrivilegesAt(env, w);
      if priv.Failed? {
        return priv, w;
      }
      if !Exists(w, path) {
        return Failed(NotInstalled), w;
      }
      var stopped;
      stopped, w' := Stop(env, w);
      var removed := Command(env, w', RemoveArgv(c.name));
      if removed.Done? {
        w' := w'.(registered := false);
      }
      w' := RemoveQuietly(env, w', path);
      var reread := Command(env, w', RereadArgv);
      r := Done;
    }

    method Start(env: Env, w: World) returns (r: Reply, w': World)
      ensures Step(r, w') == StartStep(c.Value(), env, w)
    {
      var priv := PrivilegesAt(env, w);
      if priv.Failed? {
        return priv, w;
      }
      if !Exists(w, ServicePath(c.name)) {
        return Failed(NotInstalled), w;
      }
      if IsRunning(env, c.name, w.running) {
        return Failed(AlreadyRunning), w;
      }
      r, w' := ConfigLogFile(env, w);
      if r.Failed? {
        return;
      }
      r := Command(env, w', StartArgv(c.name));
      if r.Done? {
        w' := w'.(running := true);
      }
    }

    method Stop(env: Env, w: World) returns (r: Reply, w': World)
      ensures Step(r, w') == StopStep(c.Value(), env, w)
    {
      var priv := PrivilegesAt(env, w);
      if priv.Failed? {
        return priv, w;
      }
      if !Exists(w, ServicePath(c.name)) {
        return Failed(NotInstalled), w;
      }
      if !IsRunning(env, c.name, w.running) {
        return Failed(AlreadyStopped), w;
      }
      r := Command(env, w, StopArgv(c.name));
      w' := if r.Done? then w.(running := false) else w;
    }

    method Status(env: Env, w: World) returns (r: Reply)
      ensures r == StatusReply(c.Value(), env, w)
    {
      var priv := PrivilegesAt(env, w);
      if priv.Failed? {
        return priv;
      }
      if !Exists(w, ServicePath(c.name)) {
        return Failed(NotInstalled);
      }
      var out := env.run(StatusArgv(c.name), w.running);
      if !out.ok {
        return Shown(Stopped);
      }
      var stat := Leftmost(out.output, ["STARTING", "RUNNING", "STOPPED"]);
      if stat == "STARTING" {
        r := Shown(Starting);
      } else if stat == "RUNNING" {
        r := Shown(Running(DigitsAfter(out.output, "pid ")));
      } else if stat == "STOPPED" {
        r := Shown(Stopped);
      } else {
        r := Shown(Silent);
      }
    }

    method Log(env: Env, w: World) returns (r: Reply, w': World)
      ensures Step(r, w') == LogStep(c.Value(), env, w)
    {
      if !Exists(w, ServicePath(c.name)) {
        return Failed(NotInstalled), w;
      }
      r, w' := ConfigLogFile(env, w);
      if r.Failed? {
        return;
      }
      r := Command(env, w', TailArgv(c.name));
    }
  }
}
