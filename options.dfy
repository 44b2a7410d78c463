/** The service specification (daemon.go's `config`), the With* options that
    overwrite its fields, the host-derived defaults and the validation that
    New runs before choosing a backend. */
module Options {
  import opened Errors
  import opened Paths

  /** The value of a `config`. */
  datatype Spec = Spec(
    description: string,
    name: string,
    exec: string,
    args: string,
    workDir: string,
    dependencies: string,
    user: string,
    group: string,
    logFile: string,
    pidFile: string,
    lockFile: string)

  datatype Field =
    | Description | Name | ExecPath | Args | WorkDir | Dependencies
    | User | Group | LogFile | PidFile | LockFile

  function Get(s: Spec, f: Field): string
  {
    match f
    case Description => s.description
    case Name => s.name
    case ExecPath => s.exec
    case Args => s.args
    case WorkDir => s.workDir
    case Dependencies => s.dependencies
    case User => s.user
    case Group => s.group
    case LogFile => s.logFile
    case PidFile => s.pidFile
    case LockFile => s.lockFile
  }

  /** Two specifications that agree on every field are equal. */
  lemma FieldsDetermine(s: Spec, t: Spec)
    requires forall f :: Get(s, f) == Get(t, f)
    ensures s == t
  {
    assert Get(s, Description) == Get(t, Description) && Get(s, Name) == Get(t, Name);
    assert Get(s, ExecPath) == Get(t, ExecPath) && Get(s, Args) == Get(t, Args);
    assert Get(s, WorkDir) == Get(t, WorkDir) && Get(s, Dependencies) == Get(t, Dependencies);
    assert Get(s, User) == Get(t, User) && Get(s, Group) == Get(t, Group);
    assert Get(s, LogFile) == Get(t, LogFile) && Get(s, PidFile) == Get(t, PidFile);
    assert Get(s, LockFile) == Get(t, LockFile);
  }

  /** The Configurator values that the With* constructors return. */
  datatype Configurator =
    | WithDescription(value: string)
    | WithName(value: string)
    | WithExec(value: string)
    | WithArgs(value: string)
    | WithWorkDir(value: string)
    | WithDependencies(value: string)
    | WithUser(value: string)
    | WithGroup(value: string)
    | WithLogFile(value: string)
    | WithPidFile(value: string)
    | WithLockFile(value: string)

  /** The one field an option writes. */
  function Target(op: Configurator): Field
  {
    match op
    case WithDescription(_) => Description
    case WithName(_) => Name
    case WithExec(_) => ExecPath
    case WithArgs(_) => Args
    case WithWorkDir(_) => WorkDir
    case WithDependencies(_) => Dependencies
    case WithUser(_) => User
    case WithGroup(_) => Group
    case WithLogFile(_) => LogFile
    case WithPidFile(_) => PidFile
    case WithLockFile(_) => LockFile
  }

  /** op.apply(c) on the value of `c`. */
  function Applied(s: Spec, op: Configurator): (r: Spec)
    ensures Get(r, Target(op)) == op.value
  {
    match op
    case WithDescription(v) => s.(description := v)
    case WithName(v) => s.(name := v)
    case WithExec(v) => s.(exec := v)
    case WithArgs(v) => s.(args := v)
    case WithWorkDir(v) => s.(workDir := v)
    case WithDependencies(v) => s.(dependencies := v)
    case WithUser(v) => s.(user := v)
    case WithGroup(v) => s.(group := v)
    case WithLogFile(v) => s.(logFile := v)
    case WithPidFile(v) => s.(pidFile := v)
    case WithLockFile(v) => s.(lockFile := v)
  }

  /** An option writes its own field and leaves every other field as it was. */
  lemma AppliedWritesOne(s: Spec, op: Configurator)
    ensures forall f :: Get(Applied(s, op), f) == if f == Target(op) then op.value else Get(s, f)
  {
  }

  /** The options applied in order, as New's loop does. */
  function ApplyAll(s: Spec, ops: seq<Configurator>): Spec
  {
    if ops == [] then s else Applied(ApplyAll(s, ops[..|ops| - 1]), ops[|ops| - 1])
  }

  /** The last option written to a field decides its value. */
  lemma {:induction false} LastWriteWins(s: Spec, ops: seq<Configurator>, i: nat)
    requires i < |ops|
    requires forall j :: i < j < |ops| ==> Target(ops[j]) != Target(ops[i])
    ensures Get(ApplyAll(s, ops), Target(ops[i])) == ops[i].value
  {
    if i < |ops| - 1 {
      LastWriteWins(s, ops[..|ops| - 1], i);
      AppliedWritesOne(ApplyAll(s, ops[..|ops| - 1]), ops[|ops| - 1]);
    }
  }

  /** A field no option writes keeps its default. */
  lemma {:induction false} UnwrittenFieldKept(s: Spec, ops: seq<Configurator>, f: Field)
    requires forall j :: 0 <= j < |ops| ==> Target(ops[j]) != f
    ensures Get(ApplyAll(s, ops), f) == Get(s, f)
  {
    if ops != [] {
      UnwrittenFieldKept(s, ops[..|ops| - 1], f);
      AppliedWritesOne(ApplyAll(s, ops[..|ops| - 1]), ops[|ops| - 1]);
    }
  }

  /** Options that write different fields commute. */
  lemma OptionsCommute(s: Spec, a: Configurator, b: Configurator)
    requires Target(a) != Target(b)
    ensures Applied(Applied(s, a), b) == Applied(Applied(s, b), a)
  {
    AppliedWritesOne(s, a);
    AppliedWritesOne(s, b);
    AppliedWritesOne(Applied(s, a), b);
    AppliedWritesOne(Applied(s, b), a);
    FieldsDetermine(Applied(Applied(s, a), b), Applied(Applied(s, b), a));
  }

  /** defaultConfig for the absolute path `p` of the running program. */
  function Defaults(p: string): (r: Spec)
    ensures r.exec == p && r.name == Base(p) && r.workDir == Dir(p)
    ensures r.args == "" && r.dependencies == ""
    ensures r.user == "root" && r.group == "root"
    ensures r.description == "manage the " + Base(p) + " daemon"
    ensures r.logFile == "/var/log/" + Base(p) + "/" + Base(p) + ".log"
    ensures r.pidFile == "/var/run/" + Base(p) + ".pid"
    ensures r.lockFile == "/var/lock/subsys/" + Base(p) + ".lock"
  {
    var n := Base(p);
    Spec(
      description := "manage the " + n + " daemon",
      name := n,
      exec := p,
      args := "",
      workDir := Dir(p),
      dependencies := "",
      user := "root",
      group := "root",
      logFile := "/var/log/" + n + "/" + n + ".log",
      pidFile := "/var/run/" + n + ".pid",
      lockFile := "/var/lock/subsys/" + n + ".lock")
  }

  /** setupConfig on a value: None stands for a nil *config. */
  function Setup(conf: Option<Spec>): (r: Result<Spec>)
    ensures conf.None? ==> r == Err(ConfigIsNil)
    ensures conf.Some? && conf.value.exec == "" ==> r == Err(MissExecValue)
    ensures conf.Some? && conf.value.exec != "" ==> r.Ok?
    ensures r.Ok? ==> r.value.name != "" && r.value.workDir != ""
    ensures r.Ok? ==> forall f :: f != Name && f != WorkDir ==> Get(r.value, f) == Get(conf.value, f)
    ensures r.Ok? ==> r.value.name == if conf.value.name == "" then Base(conf.value.exec) else conf.value.name
    ensures r.Ok? ==> r.value.workDir == if conf.value.workDir == "" then Dir(conf.value.exec) else conf.value.workDir
  {
    match conf
    case None => Err(ConfigIsNil)
    case Some(c) =>
      if c.exec == "" then Err(MissExecValue)
      else
        var named := if c.name == "" then c.(name := Base(c.exec)) else c;
        Ok(if named.workDir == "" then named.(workDir := Dir(c.exec)) else named)
  }

  /** WithExec alone re-derives nothing: name, working directory and the log,
      pid and lock paths stay those of the running program `p`. */
  lemma WithExecKeepsProgramDefaults(p: string, e: string)
    requires e != ""
    ensures var r := Setup(Some(ApplyAll(Defaults(p), [WithExec(e)])));
            r.Ok? && r.value.exec == e && r.value == Defaults(p).(exec := e)
  {
    assert [WithExec(e)][..0] == [];
  }

  /** Clearing Name and WorkDir makes setupConfig derive them from Exec. */
  lemma ClearedFieldsDeriveFromExec(p: string, e: string, ops: seq<Configurator>)
    requires e != ""
    ensures var r := Setup(Some(ApplyAll(Defaults(p), ops + [WithExec(e), WithName(""), WithWorkDir("")])));
            r.Ok? && r.value.name == Base(e) && r.value.workDir == Dir(e)
  {
    var all := ops + [WithExec(e), WithName(""), WithWorkDir("")];
    assert all[|ops|] == WithExec(e) && all[|ops| + 1] == WithName("") && all[|ops| + 2] == WithWorkDir("");
    LastWriteWins(Defaults(p), all, |ops|);
    LastWriteWins(Defaults(p), all, |ops| + 1);
    LastWriteWins(Defaults(p), all, |ops| + 2);
  }

  /** The mutable `config` that options, setupConfig and Install update. */
  class Config {
    var description: string
    var name: string
    var exec: string
    var args: string
    var workDir: string
    var dependencies: string
    var user: string
    var group: string
    var logFile: string
    var pidFile: string
    var lockFile: string

    function Value(): Spec
      reads this
    {
      Spec(description, name, exec, args, workDir, dependencies, user, group, logFile, pidFile, lockFile)
    }

    /** A `config` holding the fields of `s`. */
    constructor (s: Spec)
      ensures Value() == s
    {
      description, name, exec, args := s.description, s.name, s.exec, s.args;
      workDir, dependencies, user, group := s.workDir, s.dependencies, s.user, s.group;
      logFile, pidFile, lockFile := s.logFile, s.pidFile, s.lockFile;
    }

    /** Option.apply: overwrite the option's field. */
    method Apply(op: Configurator)
      modifies this
      ensures Value() == Applied(old(Value()), op)
    {
      match op
      case WithDescription(v) => description := v;
      case WithName(v) => name := v;
      case WithExec(v) => exec := v;
      case WithArgs(v) => args := v;
      case WithWorkDir(v) => workDir := v;
      case WithDependencies(v) => dependencies := v;
      case WithUser(v) => user := v;
      case WithGroup(v) => group := v;
      case WithLogFile(v) => logFile := v;
      case WithPidFile(v) => pidFile := v;
      case WithLockFile(v) => lockFile := v;
    }
  }

  /** defaultConfig: nil when the program's absolute path is unavailable. */
  method DefaultConfig(program: Option<string>) returns (c: Config?)
    ensures program.None? <==> c == null
    ensures c != null ==> fresh(c) && c.Value() == Defaults(program.value)
  {
    if program.None? {
      c := null;
    } else {
      c := new Config(Defaults(program.value));
    }
  }

  /** setupConfig: checks before changing anything, then fills the empty
      Name and WorkDir from Exec. */
  method SetupConfig(conf: Config?) returns (err: Option<Error>)
    modifies conf
    ensures var r := Setup(if conf == null then None else Some(old(conf.Value())));
            (err.None? <==> r.Ok?)
            && (r.Err? ==> err == Some(r.error))
            && (conf != null ==> conf.Value() == if r.Ok? then r.value else old(conf.Value()))
  {
    if conf == null {
      return Some(ConfigIsNil);
    }
    if conf.exec == "" {
      return Some(MissExecValue);
    }
    if conf.name == "" {
      conf.name := Base(conf.exec);
    }
    if conf.workDir == "" {
      conf.workDir := Dir(conf.exec);
    }
    return None;
  }
}
