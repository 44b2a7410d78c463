/** The systemd backend (systemd.go): a unit file under /etc/systemd/system
    and the systemctl and journalctl commands. */
module Systemd {
  import opened Errors
  import opened Text
  import opened Host
  import opened Options
  import opened Detect

  const DefaultDependencies: string :=
    "network-online.target local-fs.target time-sync.target nss-lookup.target"

  function ServicePath(name: string): string
  {
    "/etc/systemd/system/" + name + ".service"
  }

  const ReloadArgv: seq<string> := ["systemctl", "daemon-reload"]
  function EnableArgv(name: string): seq<string> { ["systemctl", "enable", name + ".service"] }
  function DisableArgv(name: string): seq<string> { ["systemctl", "disable", name + ".service"] }
  function StartArgv(name: string): seq<string> { ["systemctl", "start", name] }
  function StopArgv(name: string): seq<string> { ["systemctl", "stop", name] }
  function StatusArgv(name: string): seq<string> { ["systemctl", "status", name + ".service"] }
  function IsActiveArgv(name: string): seq<string> { ["systemctl", "is-active", name + ".service"] }
  function JournalArgv(name: string): seq<string> { ["journalctl", "-fu", name] }

  /** The dependency list the unit names: the configured one, or the
      template's default when it is empty. */
  function UnitDependencies(s: Spec): string
  {
    if s.dependencies == "" then DefaultDependencies else s.dependencies
  }

  /** systemdScript rendered for `s`, line by line: the head up to
      Description and the rest. The template's trim markers leave a blank
      line after Description exactly when Dependencies is set. */
  function UnitLines(s: Spec): seq<string>
  {
    UnitHead(s) + UnitBody(s)
  }

  function UnitHead(s: Spec): seq<string>
  {
    ["[Unit]", "Description=" + s.description] + (if s.dependencies == "" then [] else [""])
  }

  function UnitBody(s: Spec): seq<string>
  {
    var deps := UnitDependencies(s);
    ["Requires=" + deps, "After=" + deps, "", "[Service]", "User=" + s.user,
     "StartLimitInterval=5", "StartLimitBurst=10", "WorkingDirectory=" + s.workDir,
     "PIDFile=/var/run/" + s.name + ".pid",
     "ExecStartPre=/bin/rm -f /var/run/" + s.name + ".pid",
     "ExecStart=" + s.exec + " " + s.args,
     "Restart=on-failure", "RestartSec=30", "", "[Install]", "WantedBy=default.target", ""]
  }

  function UnitFile(s: Spec): string
  {
    JoinLines(UnitLines(s))
  }

  /** The unit carries the description, the dependency list (the default one
      when none is configured) in both Requires and After, the user, the
      working directory, a pid file under /var/run named after the service
      and the command line "<exec> <args>", each on a line of its own. */
  lemma UnitFileLines(s: Spec)
    ensures var u, deps := UnitFile(s), UnitDependencies(s);
            HasLine(u, "Description=" + s.description)
            && HasLine(u, "Requires=" + deps) && HasLine(u, "After=" + deps)
            && HasLine(u, "User=" + s.user)
            && HasLine(u, "WorkingDirectory=" + s.workDir)
            && HasLine(u, "PIDFile=/var/run/" + s.name + ".pid")
            && HasLine(u, "ExecStart=" + s.exec + " " + s.args)
  {
    var body := UnitBody(s);
    LineInJoin(UnitLines(s), 1);
    UnitBodyLine(s, 0);
    UnitBodyLine(s, 1);
    UnitBodyLine(s, 4);
    UnitBodyLine(s, 7);
    UnitBodyLine(s, 8);
    UnitBodyLine(s, 10);
  }

  lemma UnitBodyLine(s: Spec, k: nat)
    requires k < |UnitBody(s)| - 1
    ensures HasLine(UnitFile(s), UnitBody(s)[k])
  {
    LineInJoin(UnitLines(s), |UnitHead(s)| + k);
  }

  /** The blank line: the Requires line follows Description directly
      without configured dependencies, and after an empty line with them. */
  lemma UnitFileHead(s: Spec)
    ensures s.dependencies == "" ==>
              UnitLines(s)[..3] == ["[Unit]", "Description=" + s.description, "Requires=" + DefaultDependencies]
    ensures s.dependencies != "" ==>
              UnitLines(s)[..4] == ["[Unit]", "Description=" + s.description, "", "Requires=" + s.dependencies]
  {
    assert UnitLines(s)[|UnitHead(s)|] == "Requires=" + UnitDependencies(s);
  }

  /** The unit depends on nothing but the description, name, executable,
      arguments, working directory, dependencies and user: Group, LogFile,
      PidFile and LockFile are not used by this backend. */
  lemma UnitFileIgnores(s: Spec, t: Spec)
    requires s.description == t.description && s.name == t.name && s.exec == t.exec
    requires s.args == t.args && s.workDir == t.workDir
    requires s.dependencies == t.dependencies && s.user == t.user
    ensures UnitFile(s) == UnitFile(t)
  {
  }

  /** isRunning: `systemctl is-active` succeeds and its lower-cased output
      contains "active". */
  function IsRunning(env: Env, name: string, running: bool): bool
  {
    var out := env.run(IsActiveArgv(name), running);
    out.ok && Contains(ToLower(out.output), "active")
  }

  function InstallFailed(e: Error): Reply
  {
    Failed(Wrapped("failed to install", e))
  }

  /** Install: the privilege and installed checks, the executable lookup
      (which overwrites Exec, with "" on failure), then the unit file. The
      second component is the new Exec. */
  function InstallStep(s: Spec, env: Env, w: World): (Step, string)
  {
    var priv := PrivilegesAt(env, w);
    if priv.Failed? then (Step(InstallFailed(priv.err), w), s.exec)
    else if Exists(w, ServicePath(s.name)) then (Step(InstallFailed(AlreadyInstalled), w), s.exec)
    else match env.resolve(s.exec)
      case None => (Step(InstallFailed(NotFound(s.exec)), w), "")
      case Some(exec) => (WriteUnit(s.(exec := exec), env, w), exec)
  }

  /** The part of Install from the OpenFile on: each failure after the
      file is opened removes it again. */
  function WriteUnit(s: Spec, env: Env, w: World): Step
  {
    var path := ServicePath(s.name);
    match Open(env, w, path)
    case None => Step(InstallFailed(Fs("open", path)), w)
    case Some(w1) =>
      match Write(env, w1, path, UnitFile(s))
      case None => Step(InstallFailed(Fs("write", path)), RemoveQuietly(env, w1, path))
      case Some(w2) =>
        var reload := Command(env, w2, ReloadArgv);
        if reload.Failed? then Step(InstallFailed(reload.err), RemoveQuietly(env, w2, path))
        else
          var enable := Command(env, w2, EnableArgv(s.name));
          if enable.Failed? then Step(InstallFailed(enable.err), RemoveQuietly(env, w2, path))
          else Step(Done, w2.(registered := true))
  }

  /** Stop: privileges, installed, running, then `systemctl stop`. */
  function StopStep(s: Spec, env: Env, w: World): Step
  {
    var priv := PrivilegesAt(env, w);
    if priv.Failed? then Step(priv, w)
    else if !Exists(w, ServicePath(s.name)) then Step(Failed(NotInstalled), w)
    else if !IsRunning(env, s.name, w.running) then Step(Failed(AlreadyStopped), w)
    else
      var r := Command(env, w, StopArgv(s.name));
      Step(r, if r.Done? then w.(running := false) else w)
  }

  /** Start: privileges, installed, not running, then `systemctl start`. */
  function StartStep(s: Spec, env: Env, w: World): Step
  {
    var priv := PrivilegesAt(env, w);
    if priv.Failed? then Step(priv, w)
    else if !Exists(w, ServicePath(s.name)) then Step(Failed(NotInstalled), w)
    else if IsRunning(env, s.name, w.running) then Step(Failed(AlreadyRunning), w)
    else
      var r := Command(env, w, StartArgv(s.name));
      Step(r, if r.Done? then w.(running := true) else w)
  }

  /** Remove: after the checks, a best-effort stop, disable and deletion of
      the unit file; it then succeeds whatever those gave. */
  function RemoveStep(s: Spec, env: Env, w: World): Step
  {
    var path := ServicePath(s.name);
    var priv := PrivilegesAt(env, w);
    if priv.Failed? then Step(priv, w)
    else if !Exists(w, path) then Step(Failed(NotInstalled), w)
    else
      var w1 := StopStep(s, env, w).world;
      var w2 := if Command(env, w1, DisableArgv(s.name)).Done? then w1.(registered := false) else w1;
      Step(Done, RemoveQuietly(env, w2, path))
  }

  /** What Status prints for the output of `systemctl status`. */
  function StatusReport(out: Run): Report
  {
    if out.ok && Contains(out.output, "Active: active")
    then Running(DigitsAfter(out.output, "Main PID: "))
    else Stopped
  }

  function StatusReply(s: Spec, env: Env, w: World): Reply
  {
    var priv := PrivilegesAt(env, w);
    if priv.Failed? then priv
    else if !Exists(w, ServicePath(s.name)) then Failed(NotInstalled)
    else Shown(StatusReport(env.run(StatusArgv(s.name), w.running)))
  }

  /** Log: installed, then the outcome of following the journal. */
  function LogReply(s: Spec, env: Env, w: World): Reply
  {
    if !Exists(w, ServicePath(s.name)) then Failed(NotInstalled)
    else Command(env, w, JournalArgv(s.name))
  }

  /** The guards of Install come first and leave the host and Exec as they
      were: the privilege check, then an existing unit file. */
  lemma InstallGuards(s: Spec, env: Env, w: World)
    ensures PrivilegesAt(env, w).Failed? ==>
              InstallStep(s, env, w) == (Step(InstallFailed(PrivilegesAt(env, w).err), w), s.exec)
    ensures PrivilegesAt(env, w) == Done && Exists(w, ServicePath(s.name)) ==>
              InstallStep(s, env, w) == (Step(InstallFailed(AlreadyInstalled), w), s.exec)
    ensures PrivilegesAt(env, w) == Done && !Exists(w, ServicePath(s.name)) && env.resolve(s.exec).None? ==>
              InstallStep(s, env, w) == (Step(InstallFailed(NotFound(s.exec)), w), "")
  {
  }

  /** Install succeeds exactly when every step does, and then the unit file
      holds the template rendered with the resolved executable and the
      service is registered; nothing else on the host changes. Every
      failure comes wrapped with the "failed to install" context. */
  lemma InstallSucceeds(s: Spec, env: Env, w: World)
    ensures var (st, e) := InstallStep(s, env, w);
            var path := ServicePath(s.name);
            (st.reply == Done <==>
               PrivilegesAt(env, w) == Done && !Exists(w, path) && env.resolve(s.exec).Some?
               && !env.refuses(OpenTrunc(path)) && !env.refuses(WriteText(path))
               && env.run(ReloadArgv, w.running).ok && env.run(EnableArgv(s.name), w.running).ok)
            && (st.reply == Done ==>
                  e == env.resolve(s.exec).value
                  && st.world == w.(files := w.files[path := UnitFile(s.(exec := e))], registered := true)
                  && HasLine(st.world.files[path], "ExecStart=" + e + " " + s.args))
            && (st.reply != Done ==> st.reply.Failed? && st.reply.err.Wrapped?)
  {
    var path := ServicePath(s.name);
    if PrivilegesAt(env, w) == Done && !Exists(w, path) && env.resolve(s.exec).Some? {
      var t := s.(exec := env.resolve(s.exec).value);
      WriteUnitSucceeds(t, env, w);
      UnitFileLines(t);
    }
  }

  lemma WriteUnitSucceeds(s: Spec, env: Env, w: World)
    requires !Exists(w, ServicePath(s.name))
    ensures var st, path := WriteUnit(s, env, w), ServicePath(s.name);
            (st.reply == Done <==>
               !env.refuses(OpenTrunc(path)) && !env.refuses(WriteText(path))
               && env.run(ReloadArgv, w.running).ok && env.run(EnableArgv(s.name), w.running).ok)
            && (st.reply == Done ==> st.world == w.(files := w.files[path := UnitFile(s)], registered := true))
            && (st.reply != Done ==> st.reply.Failed? && st.reply.err.Wrapped?)
  {
  }

  /** A failed Install leaves no trace on a host that lets the unit file be
      removed: the host is exactly as before. */
  lemma InstallFailureLeavesHost(s: Spec, env: Env, w: World)
    requires !env.refuses(Delete(ServicePath(s.name)))
    ensures InstallStep(s, env, w).0.reply.Failed? ==> InstallStep(s, env, w).0.world == w
  {
    if PrivilegesAt(env, w) == Done && !Exists(w, ServicePath(s.name)) && env.resolve(s.exec).Some? {
      WriteUnitFailureLeavesHost(s.(exec := env.resolve(s.exec).value), env, w);
    }
  }

  lemma WriteUnitFailureLeavesHost(s: Spec, env: Env, w: World)
    requires !Exists(w, ServicePath(s.name)) && !env.refuses(Delete(ServicePath(s.name)))
    ensures WriteUnit(s, env, w).reply.Failed? ==> WriteUnit(s, env, w).world == w
  {
    var path := ServicePath(s.name);
    if Open(env, w, path).Some? {
      RemoveUndoesCreate(env, w, path, "");
      RemoveUndoesCreate(env, w, path, UnitFile(s));
    }
  }

  /** Installing twice: once Install has succeeded, a second Install with
      the updated configuration is refused as already installed. */
  lemma InstallTwice(s: Spec, env: Env, w: World)
    requires InstallStep(s, env, w).0.reply == Done
    ensures var (st, e) := InstallStep(s, env, w);
            InstallStep(s.(exec := e), env, st.world) == (Step(InstallFailed(AlreadyInstalled), st.world), e)
  {
    var (st, e) := InstallStep(s, env, w);
    InstallSucceeds(s, env, w);
    assert PrivilegesAt(env, st.world) == PrivilegesAt(env, w);
  }

  /** Remove's guards (privileges, then installed) change nothing; past
      them it always succeeds. The service ends stopped exactly when it was
      stopped already or the stop ran and succeeded, unregistered exactly
      when it was unregistered already or `systemctl disable` succeeded, and the
      unit file is gone whenever the host allows its removal; nothing else
      changes. */
  lemma RemoveBestEffort(s: Spec, env: Env, w: World)
    ensures var path, st, priv := ServicePath(s.name), RemoveStep(s, env, w), PrivilegesAt(env, w);
            (priv.Failed? ==> st == Step(priv, w))
            && (priv == Done && !Exists(w, path) ==> st == Step(Failed(NotInstalled), w))
            && (priv == Done && Exists(w, path) ==>
                  st.reply == Done
                  && st.world.running
                       == (w.running && !(IsRunning(env, s.name, w.running) && env.run(StopArgv(s.name), w.running).ok))
                  && st.world.registered == (w.registered && !env.run(DisableArgv(s.name), st.world.running).ok)
                  && (!env.refuses(Delete(path)) ==> !Exists(st.world, path))
                  && SameOutside(w.(running := st.world.running, registered := st.world.registered), st.world, {path}))
  {
  }

  /** On a host whose `systemctl is-active` reflects the run state and whose
      start and stop commands succeed, Start then Stop returns the host to
      where it was, and repeating either is refused. */
  lemma StartStopCycle(s: Spec, env: Env, w: World)
    requires Exists(w, ServicePath(s.name)) && !w.running
    requires PrivilegesAt(env, w) == Done && PrivilegesAt(env, w.(running := true)) == Done
    requires IsRunning(env, s.name, true) && !IsRunning(env, s.name, false)
    requires env.run(StartArgv(s.name), false).ok && env.run(StopArgv(s.name), true).ok
    ensures StartStep(s, env, w) == Step(Done, w.(running := true))
    ensures StartStep(s, env, w.(running := true)).reply == Failed(AlreadyRunning)
    ensures StopStep(s, env, w.(running := true)) == Step(Done, w)
    ensures StopStep(s, env, w).reply == Failed(AlreadyStopped)
  {
  }

  /** Status never fails once the checks pass: it reports running, with the
      main pid when the output names one, exactly when `systemctl status`
      succeeds and says "Active: active"; stopped otherwise. */
  lemma StatusAfterChecks(s: Spec, env: Env, w: World)
    requires PrivilegesAt(env, w) == Done && Exists(w, ServicePath(s.name))
    ensures var out := env.run(StatusArgv(s.name), w.running);
            var r := StatusReply(s, env, w);
            r.Shown? && (r.report.Running? || r.report == Stopped)
            && (r.report.Running? <==> out.ok && Contains(out.output, "Active: active"))
            && (r.report.Running? && r.report.pid.Some? ==>
                  AllDigits(r.report.pid.value) && Contains(out.output, "Main PID: " + r.report.pid.value))
  {
  }

  /** Log refuses a service with no unit file and otherwise reports whether
      following the journal succeeded; no privilege check comes first. */
  lemma LogOutcome(s: Spec, env: Env, w: World)
    ensures var r := LogReply(s, env, w);
            (r == Failed(NotInstalled) <==> !Exists(w, ServicePath(s.name)))
            && (r == Done <==> Exists(w, ServicePath(s.name)) && env.run(JournalArgv(s.name), w.running).ok)
            && (Exists(w, ServicePath(s.name)) && r != Done ==> r == Failed(Exec(JournalArgv(s.name))))
  {
  }

  /** The backend object: a handle on the shared configuration. */
  class Backend {
    const c: Config

    constructor (c: Config)
      ensures this.c == c
    {
      this.c := c;
    }

    method Install(env: Env, w: World) returns (r: Reply, w': World)
      modifies c`exec
      ensures (Step(r, w'), c.exec) == InstallStep(old(c.Value()), env, w)
      ensures c.Value() == old(c.Value()).(exec := c.exec)
    {
      var path := ServicePath(c.name);
      var priv := PrivilegesAt(env, w);
      if priv.Failed? {
        return InstallFailed(priv.err), w;
      }
      if Exists(w, path) {
        return InstallFailed(AlreadyInstalled), w;
      }
      var exec := c.exec;
      var resolved := env.resolve(exec);
      if resolved.None? {
        c.exec := "";
        return InstallFailed(NotFound(exec)), w;
      }
      c.exec := resolved.value;
      var made := Open(env, w, path);
      if made.None? {
        return InstallFailed(Fs("open", path)), w;
      }
      w' := made.value;
      var written := Write(env, w', path, UnitFile(c.Value()));
      if written.None? {
        return InstallFailed(Fs("write", path)), RemoveQuietly(env, w', path);
      }
      w' := written.value;
      r := Command(env, w', ReloadArgv);
      if r.Failed? {
        return InstallFailed(r.err), RemoveQuietly(env, w', path);
      }
      r := Command(env, w', EnableArgv(c.name));
      if r.Failed? {
        return InstallFailed(r.err), RemoveQuietly(env, w', path);
      }
      w' := w'.(registered := true);
    }

    /** Enable and Disable do nothing under systemd. */
    method Enable(env: Env, w: World) returns (r: Reply, w': World)
      ensures r == Done && w' == w
    {
      return Done, w;
    }

    method Disable(env: Env, w: World) returns (r: Reply, w': World)
      ensures r == Done && w' == w
    {
      return Done, w;
    }

    method Remove(env: Env, w: World) returns (r: Reply, w': World)
      ensures Step(r, w') == RemoveStep(c.Value(), env, w)
    {
      var path := ServicePath(c.name);
      var priv := PrivilegesAt(env, w);
      if priv.Failed? {
        return priv, w;
      }
      if !Exists(w, path) {
        return Failed(NotInstalled), w;
      }
      var stopped;
      stopped, w' := Stop(env, w);
      var disabled := Command(env, w', DisableArgv(c.name));
      if disabled.Done? {
        w' := w'.(registered := false);
      }
      w' := RemoveQuietly(env, w', path);
      r := Done;
    }

    method Start(env: Env, w: World) returns (r: Reply, w': World)
      ensures Step(r, w') == StartStep(c.Value(), env, w)
    {
      var priv := PrivilegesAt(env, w);
      if priv.Failed? {
        return priv, w;
      }
      if !Exists(w, ServicePath(c.name)) {
        return Failed(NotInstalled), w;
      }
      if IsRunning(env, c.name, w.running) {
        return Failed(AlreadyRunning), w;
      }
      r := Command(env, w, StartArgv(c.name));
      w' := if r.Done? then w.(running := true) else w;
    }

    method Stop(env: Env, w: World) returns (r: Reply, w': World)
      ensures Step(r, w') == StopStep(c.Value(), env, w)
    {
      var priv := PrivilegesAt(env, w);
      if priv.Failed? {
        return priv, w;
      }
      if !Exists(w, ServicePath(c.name)) {
        return Failed(NotInstalled), w;
      }
      if !IsRunning(env, c.name, w.running) {
        return Failed(AlreadyStopped), w;
      }
      r := Command(env, w, StopArgv(c.name));
      w' := if r.Done? then w.(running := false) else w;
    }

    method Status(env: Env, w: World) returns (r: Reply)
      ensures r == StatusReply(c.Value(), env, w)
    {
      var priv := PrivilegesAt(env, w);
      if priv.Failed? {
        return priv;
      }
      if !Exists(w, ServicePath(c.name)) {
        return Failed(NotInstalled);
      }
      var out := env.run(StatusArgv(c.name), w.running);
      if out.ok && Contains(out.output, "Active: active") {
        r := Shown(Running(DigitsAfter(out.output, "Main PID: ")));
      } else {
        r := Shown(Stopped);
      }
    }

    method Log(env: Env, w: World) returns (r: Reply)
      ensures r == LogReply(c.Value(), env, w)
    {
      if !Exists(w, ServicePath(c.name)) {
        return Failed(NotInstalled);
      }
      r := Command(env, w, JournalArgv(c.name));
    }
  }
}
