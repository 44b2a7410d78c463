/** The host decisions of daemon.go: which init system runs (`check`) and
    whether the caller has root's group (`checkPrivileges`), both taken over
    the results of the commands they run. */
module Detect {
  import opened Errors
  import opened Text
  import opened Host

  const PsArgv: seq<string> := ["ps", "-p1"]
  const WhichArgv: seq<string> := ["which", "supervisord"]
  const IdArgv: seq<string> := ["id", "-g"]

  /** check(): `ps` is the result of `ps -p1`, `which` that of
      `which supervisord`. */
  function Check(ps: Run, which: Run): (r: Result<string>)
    ensures !ps.ok ==> r == Err(Exec(PsArgv))
    ensures r.Ok? ==> r.value in {"systemd", "supervisor", "init"}
    ensures r.Err? ==> r.error in {Exec(PsArgv), UnsupportedSystem}
  {
    if !ps.ok then Err(Exec(PsArgv))
    else
      var sysManager := Leftmost(ps.output, ["init", "systemd"]);
      if sysManager == "systemd" then Ok("systemd")
      else if which.ok then Ok("supervisor")
      else if sysManager == "" then Err(UnsupportedSystem)
      else Ok(sysManager)
  }

  /** The precedence of check(): systemd when its name comes before any
      "init" in process 1's line, even where supervisord is installed; then
      supervisor when `which supervisord` succeeds; then init when "init"
      occurs; otherwise the system is unsupported. */
  lemma CheckPrecedence(ps: Run, which: Run)
    requires ps.ok
    ensures var fi, fs := Find(ps.output, "init"), Find(ps.output, "systemd");
            var systemdFirst := fs.Some? && (fi.None? || fs.value < fi.value);
            Check(ps, which) ==
              if systemdFirst then Ok("systemd")
              else if which.ok then Ok("supervisor")
              else if fi.Some? then Ok("init")
              else Err(UnsupportedSystem)
  {
    var fi, fs := Find(ps.output, "init"), Find(ps.output, "systemd");
    LeftmostOfTwo(ps.output, "init", "systemd");
    if fi.Some? && fs.Some? {
      // the two words start with different letters, so they never start at the same place
      FirstLetterAt(ps.output, "init", fi.value);
      FirstLetterAt(ps.output, "systemd", fs.value);
    }
  }

  lemma FirstLetterAt(s: string, p: string, k: nat)
    requires k <= |s| && p != ""
    ensures StartsWith(s[k..], p) ==> k < |s| && s[k] == p[0]
  {
    if StartsWith(s[k..], p) {
      assert s[k..][..|p|][0] == p[0];
    }
  }

  /** checkPrivileges over the result of `id -g`. */
  function Privileges(id: Run): (r: Reply)
    ensures r == Done || r == Failed(RootPrivileges) || r == Failed(UnsupportedSystem)
  {
    if !id.ok then Failed(UnsupportedSystem)
    else
      match ParseUint32(TrimSpace(id.output))
      case None => Failed(UnsupportedSystem)
      case Some(gid) => if gid == 0 then Done else Failed(RootPrivileges)
  }

  /** The three outcomes of checkPrivileges: success exactly for a trimmed
      output made only of zeros, RootPrivileges for any other 32-bit
      decimal, UnsupportedSystem when `id` fails or its output does not
      parse. */
  lemma PrivilegesClassified(id: Run)
    ensures var t := TrimSpace(id.output);
            (Privileges(id) == Done <==> id.ok && t != "" && forall i :: 0 <= i < |t| ==> t[i] == '0')
            && (Privileges(id) == Failed(RootPrivileges) <==> id.ok && ParseUint32(t).Some? && ParseUint32(t).value != 0)
            && (Privileges(id) == Failed(UnsupportedSystem) <==> !id.ok || ParseUint32(t).None?)
  {
    ParseZero(TrimSpace(id.output));
  }

  /** The privilege check at the host's current state. */
  function PrivilegesAt(env: Env, w: World): Reply
  {
    Privileges(env.run(IdArgv, w.running))
  }
}
