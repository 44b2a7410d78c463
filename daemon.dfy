/** The package entry points of daemon.go: New, which builds the
    configuration and picks the backend for the detected init system
    (newDaemon), and the package-level functions that forward to the
    default instance. */
module Daemon {
  import opened Errors
  import opened Host
  import opened Options
  import opened Detect
  import Systemd
  import Supervisord
  import SystemV

  /** The init systems newDaemon knows. */
  datatype Kind = OnSupervisord | OnSystemV | OnSystemd

  /** A `Daemon`: one of the three backends over its `config`. */
  datatype Backend =
    | SupervisordBackend(sup: Supervisord.Backend)
    | SystemVBackend(sysv: SystemV.Backend)
    | SystemdBackend(sysd: Systemd.Backend)

  function KindOf(d: Backend): Kind
  {
    match d
    case SupervisordBackend(_) => OnSupervisord
    case SystemVBackend(_) => OnSystemV
    case SystemdBackend(_) => OnSystemd
  }

  function ConfigOf(d: Backend): Config
  {
    match d
    case SupervisordBackend(b) => b.c
    case SystemVBackend(b) => b.c
    case SystemdBackend(b) => b.c
  }

  /** The switch of newDaemon over the name check() returned. */
  function Choose(name: string): (r: Result<Kind>)
    ensures r.Ok? <==> name in {"supervisor", "init", "systemd"}
    ensures r.Err? ==> r.error == UnsupportedSystem
  {
    if name == "supervisor" then Ok(OnSupervisord)
    else if name == "init" then Ok(OnSystemV)
    else if name == "systemd" then Ok(OnSystemd)
    else Err(UnsupportedSystem)
  }

  /** check() followed by the switch, at the host's current state. */
  function Detected(env: Env, w: World): Result<Kind>
  {
    match Check(env.run(PsArgv, w.running), env.run(WhichArgv, w.running))
    case Err(e) => Err(e)
    case Ok(name) => Choose(name)
  }

  /** Which backend newDaemon picks: systemd when its name comes first in
      process 1's line, then supervisord when `which supervisord`
      succeeds, then System V when "init" occurs; an unsupported system
      otherwise, and the `ps` failure when `ps -p1` fails. The switch's
      default branch is never taken. */
  lemma DetectedPrecedence(env: Env, w: World)
    ensures var ps, which := env.run(PsArgv, w.running), env.run(WhichArgv, w.running);
            var fi, fs := Text.Find(ps.output, "init"), Text.Find(ps.output, "systemd");
            var systemdFirst := fs.Some? && (fi.None? || fs.value < fi.value);
            Detected(env, w) ==
              if !ps.ok then Err(Exec(PsArgv))
              else if systemdFirst then Ok(OnSystemd)
              else if which.ok then Ok(OnSupervisord)
              else if fi.Some? then Ok(OnSystemV)
              else Err(UnsupportedSystem)
  {
    var ps, which := env.run(PsArgv, w.running), env.run(WhichArgv, w.running);
    if ps.ok {
      CheckPrecedence(ps, which);
    }
  }

  /** newDaemon: the backend for the detected init system, sharing `c`. */
  method NewDaemon(c: Config, env: Env, w: World) returns (r: Result<Backend>)
    ensures r.Ok? <==> Detected(env, w).Ok?
    ensures r.Err? ==> r.error == Detected(env, w).error
    ensures r.Ok? ==> KindOf(r.value) == Detected(env, w).value && ConfigOf(r.value) == c
  {
    var name := Check(env.run(PsArgv, w.running), env.run(WhichArgv, w.running));
    if name.Err? {
      return Err(name.error);
    }
    match name.value
    case "supervisor" =>
      var b := new Supervisord.Backend(c);
      r := Ok(SupervisordBackend(b));
    case "init" =>
      var b := new SystemV.Backend(c);
      r := Ok(SystemVBackend(b));
    case "systemd" =>
      var b := new Systemd.Backend(c);
      r := Ok(SystemdBackend(b));
    case _ =>
      r := Err(UnsupportedSystem);
  }

  /** The specification New validates: the defaults of the running
      program (None when its path is unavailable) with the options
      applied in order, then setupConfig. */
  function Built(program: Option<string>, ops: seq<Configurator>): Result<Spec>
  {
    Setup(if program.None? then None else Some(ApplyAll(Defaults(program.value), ops)))
  }

  /** New: defaultConfig, the options in order, setupConfig, then
      newDaemon. A nil default with options would be dereferenced by the
      first option, so options need the program's path. */
  method New(program: Option<string>, ops: seq<Configurator>, env: Env, w: World) returns (r: Result<Backend>)
    requires program.Some? || ops == []
    ensures var s := Built(program, ops);
            (s.Err? ==> r == Err(s.error))
            && (s.Ok? ==> (r.Ok? <==> Detected(env, w).Ok?))
            && (s.Ok? && r.Err? ==> r.error == Detected(env, w).error)
    ensures r.Ok? ==> Built(program, ops).Ok? && fresh(ConfigOf(r.value))
                      && ConfigOf(r.value).Value() == Built(program, ops).value
                      && KindOf(r.value) == Detected(env, w).value
  {
    var conf := DefaultConfig(program);
    if conf != null {
      var i := 0;
      while i < |ops|
        invariant 0 <= i <= |ops|
        invariant conf.Value() == ApplyAll(Defaults(program.value), ops[..i])
      {
        conf.Apply(ops[i]);
        assert ops[..i + 1][..i] == ops[..i];
        i := i + 1;
      }
      assert ops[..i] == ops;
    }
    var err := SetupConfig(conf);
    if err.Some? {
      return Err(err.value);
    }
    r := NewDaemon(conf, env, w);
  }

  /** The methods of the Daemon interface. */
  datatype Operation = Install | Enable | Disable | Remove | Start | Stop | Status | Log

  /** What an operation does on a backend of kind `k` over the
      specification `s`: its outcome and the specification afterwards
      (only Install changes it, through the resolved executable). */
  function Outcome(k: Kind, op: Operation, s: Spec, env: Env, w: World): (r: (Step, Spec))
    ensures op != Install ==> r.1 == s
    ensures r.1 == s.(exec := r.1.exec)
    ensures op == Status ==> r.0.world == w
  {
    match k
    case OnSupervisord => SupervisordOutcome(op, s, env, w)
    case OnSystemV => SystemVOutcome(op, s, env, w)
    case OnSystemd => SystemdOutcome(op, s, env, w)
  }

  function SupervisordOutcome(op: Operation, s: Spec, env: Env, w: World): (Step, Spec)
  {
    match op
    case Install => var (st, e) := Supervisord.InstallStep(s, env, w); (st, s.(exec := e))
    case Enable => (Step(Done, w), s)
    case Disable => (Step(Done, w), s)
    case Remove => (Supervisord.RemoveStep(s, env, w), s)
    case Start => (Supervisord.StartStep(s, env, w), s)
    case Stop => (Supervisord.StopStep(s, env, w), s)
    case Status => (Step(Supervisord.StatusReply(s, env, w), w), s)
    case Log => (Supervisord.LogStep(s, env, w), s)
  }

  function SystemVOutcome(op: Operation, s: Spec, env: Env, w: World): (Step, Spec)
  {
    match op
    case Install => var (st, e) := SystemV.InstallStep(s, env, w); (st, s.(exec := e))
    case Enable => (SystemV.EnableStep(s, env, w), s)
    case Disable => (SystemV.DisableStep(s, env, w), s)
    case Remove => (SystemV.RemoveStep(s, env, w), s)
    case Start => (SystemV.StartStep(s, env, w), s)
    case Stop => (SystemV.StopStep(s, env, w), s)
    case Status => (Step(SystemV.StatusReply(s, env, w), w), s)
    case Log => (SystemV.LogStep(s, env, w), s)
  }

  function SystemdOutcome(op: Operation, s: Spec, env: Env, w: World): (Step, Spec)
  {
    match op
    case Install => var (st, e) := Systemd.InstallStep(s, env, w); (st, s.(exec := e))
    case Enable => (Step(Done, w), s)
    case Disable => (Step(Done, w), s)
    case Remove => (Systemd.RemoveStep(s, env, w), s)
    case Start => (Systemd.StartStep(s, env, w), s)
    case Stop => (Systemd.StopStep(s, env, w), s)
    case Status => (Step(Systemd.StatusReply(s, env, w), w), s)
    case Log => (Step(Systemd.LogReply(s, env, w), w), s)
  }

  /** An operation on a supervisord backend. */
  method CallSupervisord(b: Supervisord.Backend, op: Operation, env: Env, w: World) returns (r: Reply, w': World)
    modifies b.c
    ensures Step(r, w') == SupervisordOutcome(op, old(b.c.Value()), env, w).0
    ensures b.c.Value() == SupervisordOutcome(op, old(b.c.Value()), env, w).1
  {
    match op
    case Install => r, w' := b.Install(env, w);
    case Enable => r, w' := b.Enable(env, w);
    case Disable => r, w' := b.Disable(env, w);
    case Remove => r, w' := b.Remove(env, w);
    case Start => r, w' := b.Start(env, w);
    case Stop => r, w' := b.Stop(env, w);
    case Status => r := b.Status(env, w); w' := w;
    case Log => r, w' := b.Log(env, w);
  }

  /** An operation on a System V backend. */
  method CallSystemV(b: SystemV.Backend, op: Operation, env: Env, w: World) returns (r: Reply, w': World)
    modifies b.c
    ensures Step(r, w') == SystemVOutcome(op, old(b.c.Value()), env, w).0
    ensures b.c.Value() == SystemVOutcome(op, old(b.c.Value()), env, w).1
  {
    match op
    case Install => r, w' := b.Install(env, w);
    case Enable => r, w' := b.Enable(env, w);
    case Disable => r, w' := b.Disable(env, w);
    case Remove => r, w' := b.Remove(env, w);
    case Start => r, w' := b.Start(env, w);
    case Stop => r, w' := b.Stop(env, w);
    case Status => r := b.Status(env, w); w' := w;
    case Log => r, w' := b.Log(env, w);
  }

  /** An operation on a systemd backend. */
  method CallSystemd(b: Systemd.Backend, op: Operation, env: Env, w: World) returns (r: Reply, w': World)
    modifies b.c
    ensures Step(r, w') == SystemdOutcome(op, old(b.c.Value()), env, w).0
    ensures b.c.Value() == SystemdOutcome(op, old(b.c.Value()), env, w).1
  {
    match op
    case Install => r, w' := b.Install(env, w);
    case Enable => r, w' := b.Enable(env, w);
    case Disable => r, w' := b.Disable(env, w);
    case Remove => r, w' := b.Remove(env, w);
    case Start => r, w' := b.Start(env, w);
    case Stop => r, w' := b.Stop(env, w);
    case Status => r := b.Status(env, w); w' := w;
    case Log => r := b.Log(env, w); w' := w;
  }

  /** The package-level Install, Enable, …, Log: errUnsupportedSystem
      without a default instance, otherwise the instance's own method. */
  method Call(d: Option<Backend>, op: Operation, env: Env, w: World) returns (r: Reply, w': World)
    modifies if d.Some? then {ConfigOf(d.value)} else {}
    ensures d.None? ==> r == Failed(UnsupportedSystem) && w' == w
    ensures d.Some? ==> Step(r, w') == Outcome(KindOf(d.value), op, old(ConfigOf(d.value).Value()), env, w).0
    ensures d.Some? ==> ConfigOf(d.value).Value() == Outcome(KindOf(d.value), op, old(ConfigOf(d.value).Value()), env, w).1
  {
    if d.None? {
      return Failed(UnsupportedSystem), w;
    }
    match d.value
    case SupervisordBackend(b) => r, w' := CallSupervisord(b, op, env, w);
    case SystemVBackend(b) => r, w' := CallSystemV(b, op, env, w);
    case SystemdBackend(b) => r, w' := CallSystemd(b, op, env, w);
  }
}
