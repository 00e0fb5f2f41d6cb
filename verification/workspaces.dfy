/** The workspace (`LuaWorkspace`) as all three revisions keep it: the
    canonical working directory, its `.numake` directory, the canonical
    build script, the requested target, the command-line overrides, the
    registered targets by name and the cache. The revisions differ only in
    their target type, in the names that mean "build everything" and in
    what building one target does; those are parameters here. */
module Workspaces {
  import opened Wrappers
  import opened Errors
  import opened Toml
  import opened CacheStore
  import opened Util
  import opened Paths
  import opened LibCache
  import opened Assets
  import opened FailFast
  import opened ScriptCache

  datatype Workspace<T> = Workspace(
    workdir: Path,
    numakeDir: Path,
    file: Path,
    target: string,
    compiler: Option<string>,
    linker: Option<string>,
    output: Option<string>,
    targets: map<string, T>,
    cache: Cache)

  /** The command line a workspace is made from. */
  datatype Args = Args(
    workdir: Path,
    file: string,
    target: string,
    compiler: Option<string>,
    linker: Option<string>,
    output: Option<string>)

  /** `LuaWorkspace::new`: canonicalise the working directory and the script
      (`canon` answers None for a path that does not exist), refuse a script
      outside the working directory, and open the cache. */
  function New<T>(args: Args, canon: Path -> Option<Path>, d: Dir): (r: Result<(Workspace<T>, Dir), Error>)
    ensures r.Ok? ==> StartsWith(r.value.0.file, r.value.0.workdir)
    ensures r.Ok? ==> r.value.0.targets == map[] && r.value.0.target == args.target
    ensures r.Ok? ==> r.value.0.numakeDir == Join(r.value.0.workdir, Parse(".numake"))
    ensures canon(args.workdir).Some? && canon(Join(canon(args.workdir).value, Parse(args.file))).Some?
            && !StartsWith(canon(Join(canon(args.workdir).value, Parse(args.file))).value, canon(args.workdir).value)
            ==> r == Err(PathOutsideWorkingDirectory)
    ensures canon(args.workdir).None? ==> r == Err(IoError)
    ensures canon(args.workdir).Some? && canon(Join(canon(args.workdir).value, Parse(args.file))).None?
            ==> r == Err(IoError)
    ensures r.Ok? ==>
              && canon(args.workdir).Some? && r.value.0.workdir == canon(args.workdir).value
              && canon(Join(r.value.0.workdir, Parse(args.file))) == Some(r.value.0.file)
              && LibCache.New(d) == Ok((r.value.0.cache, r.value.1))
    ensures canon(args.workdir).Some? && canon(Join(canon(args.workdir).value, Parse(args.file))).Some?
            && StartsWith(canon(Join(canon(args.workdir).value, Parse(args.file))).value, canon(args.workdir).value)
            ==> (r.Ok? <==> LibCache.New(d).Ok?)
  {
    match canon(args.workdir)
    case None => Err(IoError)
    case Some(wd) =>
      match canon(Join(wd, Parse(args.file)))
      case None => Err(IoError)
      case Some(file) =>
        if !StartsWith(file, wd) then Err(PathOutsideWorkingDirectory)
        else
          var loaded :- LibCache.New(d);
          Ok((Workspace(wd, Join(wd, Parse(".numake")), file, args.target, args.compiler,
                        args.linker, args.output, map[], loaded.0), loaded.1))
  }

  /** `register_target`: the target is stored under its own name, replacing
      any earlier target of that name; every other name keeps its target. */
  function Register<T>(w: Workspace<T>, t: T, name: T -> string): (r: Workspace<T>)
    ensures name(t) in r.targets && r.targets[name(t)] == t
    ensures r.targets.Keys == w.targets.Keys + {name(t)}
    ensures forall n :: n in w.targets && n != name(t) ==> r.targets[n] == w.targets[n]
    ensures r.cache == w.cache && r.target == w.target
  {
    w.(targets := w.targets[name(t) := t])
  }

  /** Registering two targets of the same name keeps only the later one. */
  lemma LastRegistrationWins<T>(w: Workspace<T>, t1: T, t2: T, name: T -> string)
    requires name(t1) == name(t2)
    ensures Register(Register(w, t1, name), t2, name) == Register(w, t2, name)
  {
  }

  /** Registration of targets with different names commutes. */
  lemma RegistrationCommutes<T>(w: Workspace<T>, t1: T, t2: T, name: T -> string)
    requires name(t1) != name(t2)
    ensures Register(Register(w, t1, name), t2, name) == Register(Register(w, t2, name), t1, name)
  {
  }

  /** `set(key, value)`: stored in the user table under the raw key. */
  function Set<T>(w: Workspace<T>, key: string, v: Value): (r: Workspace<T>)
    ensures r.cache.toml == w.cache.toml && r.targets == w.targets
    ensures r.cache.userValues.Keys == w.cache.userValues.Keys + {key}
  {
    w.(cache := w.cache.(userValues := w.cache.userValues[key := v]))
  }

  /** `get(key)`: the user value under the raw key, or None. */
  function Get<T>(w: Workspace<T>, key: string): (r: Option<Value>)
    ensures r.Some? <==> key in w.cache.userValues
  {
    if key in w.cache.userValues then Some(w.cache.userValues[key]) else None
  }

  /** `get` returns what `set` stored, other keys keep their values, and
      internal cache values are not affected. */
  lemma SetThenGet<T>(w: Workspace<T>, key: string, other: string, v: Value, h: Hasher, k: string)
    requires other != key
    ensures Get(Set(w, key, v), key) == Some(v)
    ensures Get(Set(w, key, v), other) == Get(w, other)
    ensures GetValue(Set(w, key, v).cache, h, k) == GetValue(w.cache, h, k)
  {
  }

  /** What running the script leaves in the script's copy of the
      workspace: the registered targets and the user table. */
  datatype Session<T> = Session(targets: map<string, T>, userValues: Table)

  /** `process`: the script must lie in the working directory; it runs
      through the size-keyed cache; the targets and user values the script
      left are copied back, and the cache is flushed. */
  function Process<T>(w: Workspace<T>, d: Dir, h: Hasher, size: string, source: Bytes,
                      run: Bytes -> Result<Session<T>, Error>, compile: Bytes -> Result<Bytes, Error>)
    : (r: Result<(Workspace<T>, Dir), Error>)
    ensures !StartsWith(w.file, w.workdir) ==> r == Err(PathOutsideWorkingDirectory)
    ensures r.Ok? ==>
              var s := RunScript(w.cache, d, h, Render(w.file), size, source, run, compile);
              && s.Ok?
              && r.value.0.targets == s.value.state.targets
              && r.value.0.cache.userValues == s.value.state.userValues
              && r.value.1.toml == Parsed(r.value.0.cache.toml)
              && WorkspaceKey in r.value.0.cache.toml
              && r.value.0.cache.toml[WorkspaceKey] == Table(s.value.state.userValues)
  {
    if !StartsWith(w.file, w.workdir) then Err(PathOutsideWorkingDirectory)
    else
      var s :- RunScript(w.cache, d, h, Render(w.file), size, source, run, compile);
      var cache := s.cache.(userValues := s.state.userValues);
      var flushed := Flush(cache, s.dir);
      Ok((w.(targets := s.state.targets, cache := flushed.0), flushed.1))
  }

  /** Whatever user values the script left are what the next workspace
      opened on the flushed directory starts with. */
  lemma ProcessPersistsUserValues<T>(w: Workspace<T>, d: Dir, h: Hasher, size: string, source: Bytes,
                                     run: Bytes -> Result<Session<T>, Error>, compile: Bytes -> Result<Bytes, Error>)
    requires Process(w, d, h, size, source, run, compile).Ok?
    ensures var r := Process(w, d, h, size, source, run, compile).value;
            LibCache.New(r.1).Ok? && LibCache.New(r.1).value.0.userValues == r.0.cache.userValues
  {
    var s := RunScript(w.cache, d, h, Render(w.file), size, source, run, compile).value;
    var cache := s.cache.(userValues := s.state.userValues);
    FlushThenLoad(s.dir, cache.toml, cache.userValues);
  }

  /** `load(path)` on the workspace's cache. */
  function Load<T>(w: Workspace<T>, d: Dir, h: Hasher, path: string, present: Path -> bool,
                   sizeOf: Path -> string, read: Path -> Result<Bytes, Error>,
                   compile: Bytes -> Result<Bytes, Error>)
    : Result<(Bytes, Workspace<T>, Dir), Error>
  {
    var l :- LoadScript(w.cache, d, h, w.workdir, path, present, sizeOf, read, compile);
    Ok((l.0, w.(cache := l.1), l.2))
  }

  /** `build_target(name)`: an unregistered name is `TargetNotFound` and
      nothing is built. */
  function BuildTarget<T>(w: Workspace<T>, name: string, build: T -> Result<(), Error>): (r: Result<(), Error>)
    ensures name !in w.targets ==> r == Err(TargetNotFound)
    ensures name in w.targets ==> r == build(w.targets[name])
  {
    if name !in w.targets then Err(TargetNotFound) else build(w.targets[name])
  }

  /** `build`: when the requested target is one of the names meaning
      "everything", every registered target is built in the map's
      iteration order (`order`), stopping at the first failure; otherwise
      the requested target alone. */
  function Build<T>(w: Workspace<T>, everything: set<string>, order: seq<string>,
                    build: T -> Result<(), Error>): (r: Result<(), Error>)
    requires IsEnumeration(order, w.targets.Keys)
  {
    if w.target in everything then
      match Traverse(order, (n: string) => BuildTarget(w, n, build))
      case Ok(_) => Ok(())
      case Err(e) => Err(e)
    else BuildTarget(w, w.target, build)
  }

  /** Building everything succeeds exactly when every registered target
      builds, whatever the iteration order; a failure is the failure of
      some registered target. Any other name builds that target only. */
  lemma BuildSpec<T>(w: Workspace<T>, everything: set<string>, order: seq<string>, build: T -> Result<(), Error>)
    requires IsEnumeration(order, w.targets.Keys)
    ensures w.target in everything ==>
              (Build(w, everything, order, build).Ok? <==> forall n :: n in w.targets ==> build(w.targets[n]).Ok?)
    ensures w.target in everything && Build(w, everything, order, build).Err? ==>
              exists n :: n in w.targets && build(w.targets[n]) == Build(w, everything, order, build)
    ensures w.target !in everything ==> Build(w, everything, order, build) == BuildTarget(w, w.target, build)
  {
    var f := (n: string) => BuildTarget(w, n, build);
    if w.target in everything {
      var t := Traverse(order, f);
      if t.Ok? {
        forall n | n in w.targets
          ensures build(w.targets[n]).Ok?
        {
          assert n in order;
          var i :| 0 <= i < |order| && order[i] == n;
          assert f(order[i]).Ok?;
        }
      } else {
        var k := FirstFailure(order, f);
        assert order[k] in w.targets;
        assert build(w.targets[order[k]]) == Err(t.error);
      }
    }
  }

  /** With nothing registered, building everything succeeds and building
      any other name is `TargetNotFound`. */
  lemma EmptyWorkspace<T>(w: Workspace<T>, everything: set<string>, build: T -> Result<(), Error>)
    requires w.targets == map[]
    ensures IsEnumeration([], w.targets.Keys)
    ensures w.target in everything ==> Build(w, everything, [], build) == Ok(())
    ensures w.target !in everything ==> Build(w, everything, [], build) == Err(TargetNotFound)
  {
  }
}
