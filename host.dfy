/** The host the package acts on: the filesystem, the service's run state
    and boot registration, and oracles for the external commands, the
    filesystem calls that can fail and the executable lookup. */
module Host {
  import opened Errors

  /** What an external command gave back: whether it exited successfully,
      and its output. */
  datatype Run = Run(ok: bool, output: string)

  /** A filesystem call that the host may refuse. */
  datatype FsCall =
    | OpenTrunc(path: string)   // os.OpenFile(path, O_RDWR|O_CREATE|O_TRUNC, mode)
    | WriteText(path: string)   // template.Execute into the opened file
    | Delete(path: string)      // os.Remove
    | MkdirAll(path: string)    // os.MkdirAll
    | CreateFile(path: string)  // os.Create

  /** The oracles. `run(argv, running)` answers a command given whether the
      service currently runs; `refuses(call)` says a filesystem call fails;
      `resolve(exec)` is executablePath (exec.LookPath, then filepath.Abs). */
  datatype Env = Env(
    run: (seq<string>, bool) -> Run,
    refuses: FsCall -> bool,
    resolve: string -> Option<string>)

  /** The host's state: regular files with their contents, directories, and
      whether the service runs and is registered with the host's manager. */
  datatype World = World(
    files: map<string, string>,
    dirs: set<string>,
    running: bool,
    registered: bool)

  /** The outcome of an operation: its reply and the host afterwards. */
  datatype Step = Step(reply: Reply, world: World)

  /** os.Stat succeeds (a file or a directory is there). */
  predicate Exists(w: World, p: string)
  {
    p in w.files || p in w.dirs
  }

  /** os.OpenFile with O_CREATE|O_TRUNC: an empty file, or None on failure. */
  function Open(env: Env, w: World, p: string): (r: Option<World>)
    ensures r.Some? <==> !env.refuses(OpenTrunc(p)) && p !in w.dirs
    ensures r.Some? ==> r.value == w.(files := w.files[p := ""])
  {
    if env.refuses(OpenTrunc(p)) || p in w.dirs then None
    else Some(w.(files := w.files[p := ""]))
  }

  /** Writing rendered text into an opened file; on failure the file keeps
      what it had (empty, after the truncating open). */
  function Write(env: Env, w: World, p: string, text: string): (r: Option<World>)
    ensures r.Some? <==> !env.refuses(WriteText(p))
    ensures r.Some? ==> r.value == w.(files := w.files[p := text])
  {
    if env.refuses(WriteText(p)) then None
    else Some(w.(files := w.files[p := text]))
  }

  /** `w'` differs from `w` only by new files and directories among
      `extra`: nothing is removed or overwritten and the service's state is
      unchanged. */
  predicate Grows(w: World, w': World, extra: set<string>)
  {
    w'.running == w.running && w'.registered == w.registered
    && w.dirs <= w'.dirs <= w.dirs + extra
    && w.files.Keys <= w'.files.Keys <= w.files.Keys + extra
    && forall p :: p in w.files ==> w'.files[p] == w.files[p]
  }

  /** Adding a file or directory `p` that was not there keeps the growth
      within `extra` plus `p`. */
  lemma GrowsByWrite(w: World, w1: World, p: string, text: string, extra: set<string>)
    requires Grows(w, w1, extra) && !Exists(w, p)
    ensures Grows(w, w1.(files := w1.files[p := text]), extra + {p})
  {
  }

  /** Growth composes: what two steps add is within the union of what each may add. */
  lemma GrowsTrans(w: World, w1: World, w2: World, x: set<string>, y: set<string>)
    requires Grows(w, w1, x) && Grows(w1, w2, y)
    ensures Grows(w, w2, x + y)
  {
  }

  /** `w'` agrees with `w` outside `paths`: the same files with the same
      contents, the same directories and the same service state. Inside
      `paths` anything may have been added, rewritten or removed. */
  ghost predicate SameOutside(w: World, w': World, paths: set<string>)
  {
    w'.running == w.running && w'.registered == w.registered
    && (forall p :: p !in paths ==> (p in w.files <==> p in w'.files) && (p in w.dirs <==> p in w'.dirs))
    && (forall p :: p in w.files && p !in paths ==> w'.files[p] == w.files[p])
  }

  /** Growth within `extra` changes nothing outside `extra`. */
  lemma GrowsSameOutside(w: World, w': World, extra: set<string>)
    requires Grows(w, w', extra)
    ensures SameOutside(w, w', extra)
  {
  }

  /** Agreement outside a set of paths composes like growth. */
  lemma SameOutsideTrans(w: World, w1: World, w2: World, x: set<string>, y: set<string>)
    requires SameOutside(w, w1, x) && SameOutside(w1, w2, y)
    ensures SameOutside(w, w2, x + y)
  {
  }

  /** os.Remove: fails when nothing is there or the host refuses. */
  function Remove(env: Env, w: World, p: string): (r: Option<World>)
    ensures r.Some? <==> Exists(w, p) && !env.refuses(Delete(p))
    ensures r.Some? ==> !Exists(r.value, p)
    ensures r.Some? ==> r.value == w.(files := w.files - {p}, dirs := w.dirs - {p})
  {
    if !Exists(w, p) || env.refuses(Delete(p)) then None
    else Some(w.(files := w.files - {p}, dirs := w.dirs - {p}))
  }

  /** `_ = os.Remove(p)`: a removal whose failure is ignored. */
  function RemoveQuietly(env: Env, w: World, p: string): (r: World)
    ensures !env.refuses(Delete(p)) ==> !Exists(r, p)
    ensures Exists(w, p) && !env.refuses(Delete(p)) ==> r == Remove(env, w, p).value
    ensures !Exists(w, p) || env.refuses(Delete(p)) ==> r == w
  {
    match Remove(env, w, p)
    case Some(w') => w'
    case None => w
  }

  /** Removing a file that was not there before it was written undoes the
      write completely. */
  lemma RemoveUndoesCreate(env: Env, w: World, p: string, text: string)
    requires !Exists(w, p) && !env.refuses(Delete(p))
    ensures RemoveQuietly(env, w.(files := w.files[p := text]), p) == w
  {
    assert w.files[p := text] - {p} == w.files;
    assert w.dirs - {p} == w.dirs;
  }

  /** os.MkdirAll (the intermediate directories it also creates are not
      tracked). */
  function Mkdir(env: Env, w: World, p: string): (r: Option<World>)
    ensures r.Some? <==> !env.refuses(MkdirAll(p))
    ensures r.Some? ==> r.value == w.(dirs := w.dirs + {p})
  {
    if env.refuses(MkdirAll(p)) then None
    else Some(w.(dirs := w.dirs + {p}))
  }

  /** Removing a directory that was not there before it was made undoes
      the making completely. */
  lemma RemoveUndoesMkdir(env: Env, w: World, p: string)
    requires !Exists(w, p) && !env.refuses(Delete(p)) && !env.refuses(MkdirAll(p))
    ensures RemoveQuietly(env, Mkdir(env, w, p).value, p) == w
  {
    assert w.files - {p} == w.files;
    assert w.dirs + {p} - {p} == w.dirs;
  }

  /** os.Create: an empty file, or None on failure. */
  function Create(env: Env, w: World, p: string): (r: Option<World>)
    ensures r.Some? <==> !env.refuses(CreateFile(p)) && p !in w.dirs
    ensures r.Some? ==> r.value == w.(files := w.files[p := ""])
  {
    if env.refuses(CreateFile(p)) || p in w.dirs then None
    else Some(w.(files := w.files[p := ""]))
  }

  /** `exec.Command(argv...).Run()` reduced to its error. */
  function Command(env: Env, w: World, argv: seq<string>): (r: Reply)
    ensures r == Done || r == Failed(Exec(argv))
    ensures r == Done <==> env.run(argv, w.running).ok
  {
    if env.run(argv, w.running).ok then Done else Failed(Exec(argv))
  }

  /** Adding a file `p`, growing the host by `extra` and removing `p`
      again leaves only the growth. */
  lemma GrowsThenUndo(env: Env, w: World, p: string, w2: World, w': World, extra: set<string>)
    requires !Exists(w, p) && !env.refuses(Delete(p)) && p !in extra
    requires Grows(w, w2, {p}) && Grows(w2, w', extra)
    ensures Grows(w, RemoveQuietly(env, w', p), extra)
    ensures !Exists(RemoveQuietly(env, w', p), p)
  {
    var r := RemoveQuietly(env, w', p);
    assert r.files == w'.files - {p};
    assert r.dirs == w'.dirs - {p};
  }
}
