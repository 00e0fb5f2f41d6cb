/** The single global project of the first revisions (`src/project.rs`,
    then `src/numake_file.rs`). The script fills one record through
    add/set functions, and `build` compiles, links and copies assets for
    one `arch-target-configuration`. Every error in this revision aborts
    the program (`unwrap`), so every error here is a `Panic`, except
    two. A missing `arch`, `target` or `configuration` makes `build`
    return None and build nothing. An unreadable directory in `add_dir`
    is returned as an error. */
module FlatProject {
  import opened Wrappers
  import opened Errors
  import opened Paths
  import opened Process
  import opened Assets
  import Toolchain
  import FailFast
  import Walk
  import opened Sandbox
  import LuaFile

  datatype Project = Project(
    opts: Toolchain.Options,
    lang: string,
    files: seq<Path>,
    assets: seq<(string, string)>,
    numakeDir: Path,
    target: Option<string>,
    configuration: Option<string>,
    arch: Option<string>,
    compiler: Option<string>,
    linker: Option<string>,
    file: Path,
    output: string,
    workdir: Path,
    msvc: bool)

  /** The command line the project is made from. */
  datatype Args = Args(
    workdir: Path,
    file: string,
    target: Option<string>,
    configuration: Option<string>,
    arch: Option<string>,
    compiler: Option<string>,
    linker: Option<string>,
    output: string,
    msvc: bool)

  /** `Project::new`: the working directory is canonicalised (aborting
      when it does not exist); the script path is kept as given. */
  function New(args: Args, canon: Path -> Option<Path>): (r: Result<Project, Error>)
    ensures r.Ok? <==> canon(args.workdir).Some?
    ensures r.Err? ==> r.error.Panic?
    ensures r.Ok? ==>
              && r.value.workdir == canon(args.workdir).value
              && r.value.numakeDir == Join(r.value.workdir, Parse(".numake"))
              && r.value.files == [] && r.value.assets == [] && r.value.file == Parse(args.file)
              && r.value.opts == Toolchain.Options([], [], [], [], [], [])
  {
    match canon(args.workdir)
    case None => Err(Panic("canonicalize(workdir).unwrap() on a missing directory"))
    case Some(wd) =>
      Ok(Project(Toolchain.Options([], [], [], [], [], []), "", [], [], Join(wd, Parse(".numake")),
                 args.target, args.configuration, args.arch, args.compiler, args.linker,
                 Parse(args.file), args.output, wd, args.msvc))
  }

  // ----- The list setters -----

  /** The six string lists a script can add to or replace. */
  datatype List = IncludePaths | CompilerFlags | LinkerFlags | LibPaths | Libs | Defines

  function Get(o: Toolchain.Options, l: List): seq<string> {
    match l
    case IncludePaths => o.includePaths
    case CompilerFlags => o.compilerFlags
    case LinkerFlags => o.linkerFlags
    case LibPaths => o.libPaths
    case Libs => o.libs
    case Defines => o.defines
  }

  /** Replacing one list leaves the five others alone. */
  function Put(o: Toolchain.Options, l: List, xs: seq<string>): (r: Toolchain.Options)
    ensures Get(r, l) == xs
    ensures forall m :: m != l ==> Get(r, m) == Get(o, m)
  {
    match l
    case IncludePaths => o.(includePaths := xs)
    case CompilerFlags => o.(compilerFlags := xs)
    case LinkerFlags => o.(linkerFlags := xs)
    case LibPaths => o.(libPaths := xs)
    case Libs => o.(libs := xs)
    case Defines => o.(defines := xs)
  }

  /** `add_include_path`, `add_compiler_flag`, `add_linker_flag`,
      `add_lib_path`, `add_lib` and `define`: one entry is appended. */
  function AddTo(p: Project, l: List, x: string): (r: Project)
    ensures Get(r.opts, l) == Get(p.opts, l) + [x]
    ensures forall m :: m != l ==> Get(r.opts, m) == Get(p.opts, m)
    ensures r == p.(opts := r.opts)
  {
    p.(opts := Put(p.opts, l, Get(p.opts, l) + [x]))
  }

  /** `set_include_paths`, `set_compiler_flags`, `set_linker_flags`,
      `set_lib_paths` and `set_libs`: the list is replaced. There is no
      setter for the defines, which a script can only add to. */
  function SetList(p: Project, l: List, xs: seq<string>): (r: Project)
    requires l != Defines
    ensures Get(r.opts, l) == xs
    ensures forall m :: m != l ==> Get(r.opts, m) == Get(p.opts, m)
    ensures r == p.(opts := r.opts)
  {
    p.(opts := Put(p.opts, l, xs))
  }

  /** Adding entries one by one builds the same list as replacing it
      (with `SetList` for the lists that have a setter). */
  lemma {:induction false} AddsAreASet(p: Project, l: List, xs: seq<string>)
    ensures AddAll(p.(opts := Put(p.opts, l, [])), l, xs) == p.(opts := Put(p.opts, l, xs))
    ensures l != Defines ==> AddAll(SetList(p, l, []), l, xs) == SetList(p, l, xs)
    decreases |xs|
  {
    if |xs| > 0 {
      var init := xs[..|xs| - 1];
      AddsAreASet(p, l, init);
      assert init + [xs[|xs| - 1]] == xs;
      PutTwice(p.opts, l, init, xs);
    }
  }

  lemma PutTwice(o: Toolchain.Options, l: List, xs: seq<string>, ys: seq<string>)
    ensures Put(Put(o, l, xs), l, ys) == Put(o, l, ys)
  {
  }

  /** The adds of `xs`, in order. */
  function AddAll(p: Project, l: List, xs: seq<string>): Project
    decreases |xs|
  {
    if |xs| == 0 then p else AddTo(AddAll(p, l, xs[..|xs| - 1]), l, xs[|xs| - 1])
  }

  // ----- Sources -----

  /** The extensions a source may have. */
  const SourceExtensions: seq<string> := ["cpp", "c", "cxx", "h", "hxx", "hpp"]

  /** `add_file`: canonicalise (aborting when the file does not exist);
      a regular file with a listed extension is appended. Anything else
      aborts, including a file with no extension at all (`unwrap` on its
      extension). Nothing checks that the file lies in the working
      directory. */
  function AddFile(p: Project, file: Path, canon: Path -> Option<Path>, isFile: Path -> bool): (r: Result<Project, Error>)
    ensures r.Ok? <==> canon(file).Some? && isFile(canon(file).value)
                       && Walk.Keep(Some(SourceExtensions), canon(file).value)
    ensures r.Ok? ==> r.value == p.(files := p.files + [canon(file).value])
    ensures r.Err? ==> r.error.Panic?
  {
    match canon(file)
    case None => Err(Panic("canonicalize(file).unwrap() on a missing file"))
    case Some(path) =>
      if !isFile(path) then Err(Panic("Invalid file!"))
      else match Extension(path)
        case None => Err(Panic("extension().unwrap() on a file without extension"))
        case Some(ext) =>
          if ext in SourceExtensions then Ok(p.(files := p.files + [path]))
          else Err(Panic("Invalid file!"))
  }

  /** `add_dir` on the directory `start`: listing something that is not a
      directory is an error returned to the script. A sub-directory is
      entered when `recursive` is set. A regular file with a listed
      extension is appended and one with another extension is skipped; a
      file without an extension aborts, and so does an entry whose path
      cannot be canonicalised (`unwrap`); an entry `read_dir` cannot yield
      is an error returned to the script (`entry?`). Nothing checks the
      working directory. Files added before an error stay. */
  function AddDir(files: seq<Path>, start: Walk.Node, recursive: bool): (r: Partial<seq<Path>>)
    ensures files <= r.state
    ensures r.error.Some? ==> r.error.value == IoError || r.error.value.Panic?
    decreases start, 1
  {
    if !start.Dir? then Partial(files, Some(IoError))
    else AddEntries(files, start, 0, recursive)
  }

  function AddEntries(files: seq<Path>, dir: Walk.Node, i: nat, recursive: bool): (r: Partial<seq<Path>>)
    requires dir.Dir? && i <= |dir.entries|
    ensures files <= r.state
    ensures i < |dir.entries| && dir.entries[i].Unreadable? ==> r == Partial(files, Some(IoError))
    ensures i < |dir.entries| && dir.entries[i].Unresolvable? ==> r.state == files && r.error.Some? && r.error.value.Panic?
    ensures r.error.Some? ==> r.error.value == IoError || r.error.value.Panic?
    decreases dir, 0, |dir.entries| - i
  {
    if i == |dir.entries| then Partial(files, None)
    else
      var e := dir.entries[i];
      if e.Unreadable? then Partial(files, Some(IoError))
      else if e.Unresolvable? then Partial(files, Some(Panic("canonicalize(entry).unwrap() on an entry that does not resolve")))
      else if e.Dir? && recursive then
        var sub := AddDir(files, e, recursive);
        if sub.error.Some? then sub else AddEntries(sub.state, dir, i + 1, recursive)
      else if e.File? then
        match Extension(e.path)
        case None => Partial(files, Some(Panic("extension().unwrap() on a file without extension")))
        case Some(ext) =>
          AddEntries(if ext in SourceExtensions then files + [e.path] else files, dir, i + 1, recursive)
      else AddEntries(files, dir, i + 1, recursive)
  }

  /** `add_dir` against the directory walk of the later revisions, on a
      tree whose directories all lie in `wd` (say the file-system root).
      It completes exactly when no file the walk reaches lacks an
      extension. It then appends exactly the walk's files with a listed
      extension (`Walk.WalkDir` with that filter), in order. */
  lemma {:induction false} AddDirIsFilteredWalk(files: seq<Path>, wd: Path, start: Walk.Node, recursive: bool)
    requires Walk.Walkable(wd, start, recursive)
    ensures var r := AddDir(files, start, recursive);
            var all := Walk.WalkDir(wd, start, recursive, None);
            var kept := Walk.WalkDir(wd, start, recursive, Some(SourceExtensions));
            && all.Ok? && kept.Ok?
            && (r.error.None? <==> AllHaveExtension(all.value))
            && (r.error.None? ==> r.state == files + kept.value)
    decreases start, 1
  {
    AddEntriesIsFilteredWalk(files, wd, start, 0, recursive);
  }

  /** Every path in `ps` has an extension. */
  predicate AllHaveExtension(ps: seq<Path>) {
    forall i :: 0 <= i < |ps| ==> Extension(ps[i]).Some?
  }

  lemma AllHaveExtensionAppend(a: seq<Path>, b: seq<Path>)
    ensures AllHaveExtension(a + b) <==> AllHaveExtension(a) && AllHaveExtension(b)
  {
    assert forall i :: 0 <= i < |a| ==> (a + b)[i] == a[i];
    assert forall i :: 0 <= i < |b| ==> (a + b)[|a| + i] == b[i];
    if AllHaveExtension(a) && AllHaveExtension(b) {
      forall i | 0 <= i < |a + b|
        ensures Extension((a + b)[i]).Some?
      {
        if i >= |a| {
          assert (a + b)[i] == b[i - |a|];
        }
      }
    }
  }

  /** The conclusion of the two lemmas above for the entries of `dir` from
      the `i`-th on. */
  predicate EntriesAgree(files: seq<Path>, wd: Path, dir: Walk.Node, i: nat, recursive: bool)
    requires dir.Dir? && i <= |dir.entries|
  {
    var r := AddEntries(files, dir, i, recursive);
    var all := Walk.WalkEntries(wd, dir, i, recursive, None);
    var kept := Walk.WalkEntries(wd, dir, i, recursive, Some(SourceExtensions));
    && all.Ok? && kept.Ok?
    && (r.error.None? <==> AllHaveExtension(all.value))
    && (r.error.None? ==> r.state == files + kept.value)
  }

  lemma {:induction false} AddEntriesIsFilteredWalk(files: seq<Path>, wd: Path, dir: Walk.Node, i: nat, recursive: bool)
    requires dir.Dir? && i <= |dir.entries|
    requires Walk.EntriesWalkable(wd, dir, i, recursive)
    ensures EntriesAgree(files, wd, dir, i, recursive)
    decreases dir, 0, |dir.entries| - i
  {
    if i < |dir.entries| {
      var e := dir.entries[i];
      if e.Dir? && recursive {
        AddDirIsFilteredWalk(files, wd, e, recursive);
        var sub := AddDir(files, e, recursive);
        AddEntriesIsFilteredWalk(sub.state, wd, dir, i + 1, recursive);
        SubDirStep(files, wd, dir, i, recursive);
      } else if e.File? && Extension(e.path).Some? && Extension(e.path).value in SourceExtensions {
        AddEntriesIsFilteredWalk(files + [e.path], wd, dir, i + 1, recursive);
        KeptFileStep(files, wd, dir, i, recursive);
      } else if e.File? && Extension(e.path).Some? {
        AddEntriesIsFilteredWalk(files, wd, dir, i + 1, recursive);
        SkippedFileStep(files, wd, dir, i, recursive);
      } else if e.File? {
        AddEntriesIsFilteredWalk(files, wd, dir, i + 1, recursive);
        NamelessFileStep(files, wd, dir, i, recursive);
      } else {
        assert !e.Broken();
        AddEntriesIsFilteredWalk(files, wd, dir, i + 1, recursive);
        PassedOverStep(files, wd, dir, i, recursive);
      }
    }
  }

  /** The step over a sub-directory that is entered. */
  lemma SubDirStep(files: seq<Path>, wd: Path, dir: Walk.Node, i: nat, recursive: bool)
    requires dir.Dir? && i < |dir.entries| && dir.entries[i].Dir? && recursive
    requires var sub := AddDir(files, dir.entries[i], recursive);
             var all := Walk.WalkDir(wd, dir.entries[i], recursive, None);
             var kept := Walk.WalkDir(wd, dir.entries[i], recursive, Some(SourceExtensions));
             && all.Ok? && kept.Ok?
             && (sub.error.None? <==> AllHaveExtension(all.value))
             && (sub.error.None? ==> sub.state == files + kept.value)
             && EntriesAgree(sub.state, wd, dir, i + 1, recursive)
    ensures EntriesAgree(files, wd, dir, i, recursive)
  {
    var e := dir.entries[i];
    var sub := AddDir(files, e, recursive);
    var subAll := Walk.WalkDir(wd, e, recursive, None).value;
    var subKept := Walk.WalkDir(wd, e, recursive, Some(SourceExtensions)).value;
    var restAll := Walk.WalkEntries(wd, dir, i + 1, recursive, None).value;
    var restKept := Walk.WalkEntries(wd, dir, i + 1, recursive, Some(SourceExtensions)).value;
    AllHaveExtensionAppend(subAll, restAll);
    if sub.error.None? {
      assert files + subKept + restKept == files + (subKept + restKept);
    }
  }

  /** The step over a file with a listed extension. */
  lemma KeptFileStep(files: seq<Path>, wd: Path, dir: Walk.Node, i: nat, recursive: bool)
    requires dir.Dir? && i < |dir.entries| && dir.entries[i].File?
    requires Extension(dir.entries[i].path).Some? && Extension(dir.entries[i].path).value in SourceExtensions
    requires EntriesAgree(files + [dir.entries[i].path], wd, dir, i + 1, recursive)
    ensures EntriesAgree(files, wd, dir, i, recursive)
  {
    var e := dir.entries[i];
    var restAll := Walk.WalkEntries(wd, dir, i + 1, recursive, None).value;
    var restKept := Walk.WalkEntries(wd, dir, i + 1, recursive, Some(SourceExtensions)).value;
    assert AddEntries(files, dir, i, recursive) == AddEntries(files + [e.path], dir, i + 1, recursive);
    assert Walk.WalkEntries(wd, dir, i, recursive, None) == Ok([e.path] + restAll);
    assert Walk.Keep(Some(SourceExtensions), e.path);
    assert Walk.WalkEntries(wd, dir, i, recursive, Some(SourceExtensions)) == Ok([e.path] + restKept);
    AllHaveExtensionAppend([e.path], restAll);
    assert files + [e.path] + restKept == files + ([e.path] + restKept);
  }

  /** The step over a file with another extension. */
  lemma SkippedFileStep(files: seq<Path>, wd: Path, dir: Walk.Node, i: nat, recursive: bool)
    requires dir.Dir? && i < |dir.entries| && dir.entries[i].File?
    requires Extension(dir.entries[i].path).Some? && Extension(dir.entries[i].path).value !in SourceExtensions
    requires EntriesAgree(files, wd, dir, i + 1, recursive)
    ensures EntriesAgree(files, wd, dir, i, recursive)
  {
    var e := dir.entries[i];
    var restAll := Walk.WalkEntries(wd, dir, i + 1, recursive, None).value;
    var restKept := Walk.WalkEntries(wd, dir, i + 1, recursive, Some(SourceExtensions)).value;
    AllHaveExtensionAppend([e.path], restAll);
    assert [] + restKept == restKept;
  }

  /** The step over a file with no extension, which stops the add. */
  lemma NamelessFileStep(files: seq<Path>, wd: Path, dir: Walk.Node, i: nat, recursive: bool)
    requires dir.Dir? && i < |dir.entries| && dir.entries[i].File? && Extension(dir.entries[i].path).None?
    requires EntriesAgree(files, wd, dir, i + 1, recursive)
    ensures EntriesAgree(files, wd, dir, i, recursive)
  {
    var e := dir.entries[i];
    var all := Walk.WalkEntries(wd, dir, i, recursive, None).value;
    assert all == [e.path] + Walk.WalkEntries(wd, dir, i + 1, recursive, None).value;
    assert all[0] == e.path;
  }

  /** The step over a sub-directory that is not entered. */
  lemma PassedOverStep(files: seq<Path>, wd: Path, dir: Walk.Node, i: nat, recursive: bool)
    requires dir.Dir? && i < |dir.entries| && !dir.entries[i].File? && !dir.entries[i].Broken()
    requires !(dir.entries[i].Dir? && recursive)
    requires EntriesAgree(files, wd, dir, i + 1, recursive)
    ensures EntriesAgree(files, wd, dir, i, recursive)
  {
    assert [] + Walk.WalkEntries(wd, dir, i + 1, recursive, None).value
        == Walk.WalkEntries(wd, dir, i + 1, recursive, None).value;
    assert [] + Walk.WalkEntries(wd, dir, i + 1, recursive, Some(SourceExtensions)).value
        == Walk.WalkEntries(wd, dir, i + 1, recursive, Some(SourceExtensions)).value;
  }

  // ----- Assets -----

  /** `add_asset(filepath, newpath)` as written: the path is canonicalised
      (aborting when missing) and must be a regular file, but the pair is
      stored with the text as given, not the canonical path. */
  function AddAssetAsWritten(p: Project, filepath: string, newpath: string, canon: Path -> Option<Path>,
                             isFile: Path -> bool): (r: Result<Project, Error>)
    ensures r.Ok? <==> canon(Parse(filepath)).Some? && isFile(canon(Parse(filepath)).value)
    ensures r.Ok? ==> r.value == p.(assets := p.assets + [(filepath, newpath)])
    ensures r.Err? ==> r.error.Panic?
  {
    match canon(Parse(filepath))
    case None => Err(Panic("canonicalize(filepath).unwrap() on a missing file"))
    case Some(path) =>
      if isFile(path) then Ok(p.(assets := p.assets + [(filepath, newpath)]))
      else Err(Panic("Invalid file!"))
  }

  /** The corrected `add_asset`: the canonical path is stored, as the
      build's check expects ("already canonicalized"). */
  function AddAsset(p: Project, filepath: string, newpath: string, canon: Path -> Option<Path>,
                    isFile: Path -> bool): (r: Result<Project, Error>)
    ensures r.Ok? <==> canon(Parse(filepath)).Some? && isFile(canon(Parse(filepath)).value)
    ensures r.Ok? ==> r.value == p.(assets := p.assets + [(Render(canon(Parse(filepath)).value), newpath)])
    ensures r.Err? ==> r.error.Panic?
  {
    match canon(Parse(filepath))
    case None => Err(Panic("canonicalize(filepath).unwrap() on a missing file"))
    case Some(path) =>
      if isFile(path) then Ok(p.(assets := p.assets + [(Render(path), newpath)]))
      else Err(Panic("Invalid file!"))
  }

  /** The build's check of one stored asset: the source must lie in the
      canonical working directory and the destination, joined onto the
      output directory, must stay below it. Either failure aborts. */
  function AssetCheck(wd: Path, outDir: Path, asset: (string, string)): (r: Result<Copy, Error>)
    ensures r.Ok? <==> StartsWith(Parse(asset.0), wd) && Inside(outDir, Parse(asset.1))
    ensures r.Ok? ==> r.value == Copy(Parse(asset.0), Join(outDir, Parse(asset.1)))
    ensures r.Err? ==> r.error.Panic?
  {
    if !StartsWith(Parse(asset.0), wd) then Err(Panic("Asset file originates outside workspace!"))
    else if !Inside(outDir, Parse(asset.1)) then Err(Panic("Asset file copied to invalid destination!"))
    else Ok(Copy(Parse(asset.0), Join(outDir, Parse(asset.1))))
  }

  function AssetChecker(wd: Path, outDir: Path): ((string, string)) -> Result<Copy, Error> {
    a => AssetCheck(wd, outDir, a)
  }

  /** As written, an asset named relative to the working directory, as the
      comment on `add_asset` assumes, is accepted by `add_asset` and then
      always aborts the build: its text is a relative path, and a relative
      path never starts with the absolute working directory. */
  lemma RelativeAssetAbortsAsWritten(p: Project, filepath: string, newpath: string, canon: Path -> Option<Path>,
                                     isFile: Path -> bool, outDir: Path)
    requires p.workdir.absolute
    requires filepath != "" && filepath[0] != '/'
    requires AddAssetAsWritten(p, filepath, newpath, canon, isFile).Ok?
    ensures var q := AddAssetAsWritten(p, filepath, newpath, canon, isFile).value;
            AssetCheck(q.workdir, outDir, q.assets[|q.assets| - 1]).Err?
  {
    ParseAbsolute(filepath);
  }

  /** Corrected, every asset whose canonical path is a well-formed path
      inside the working directory passes the origin check, and then only
      its destination is checked. */
  lemma AssetInsidePasses(p: Project, filepath: string, newpath: string, canon: Path -> Option<Path>,
                          isFile: Path -> bool, outDir: Path)
    requires AddAsset(p, filepath, newpath, canon, isFile).Ok?
    requires StartsWith(canon(Parse(filepath)).value, p.workdir) && WellFormed(canon(Parse(filepath)).value)
    ensures var q := AddAsset(p, filepath, newpath, canon, isFile).value;
            AssetCheck(q.workdir, outDir, q.assets[|q.assets| - 1]) ==
              if Inside(outDir, Parse(newpath)) then Ok(Copy(canon(Parse(filepath)).value, Join(outDir, Parse(newpath))))
              else Err(Panic("Asset file copied to invalid destination!"))
  {
    ParseRender(canon(Parse(filepath)).value);
  }

  // ----- build -----

  /** The object of one source: `<obj_dir>/<file name>.<obj|o>`, aborting
      on a path with no file name. Like `LuaFile.ObjectNameAsWritten`,
      only the file name is used. */
  function ObjectFor(objDir: Path, file: Path, msvc: bool): (r: Result<Path, Error>)
    ensures r.Ok? <==> FileName(file).Some?
    ensures r.Ok? ==> r.value == Path(objDir.absolute, objDir.comps + [FileName(file).value + "." + LuaFile.ObjectExt(msvc)])
  {
    match FileName(file)
    case None => Err(Panic("file_name().unwrap() on a path with no file name"))
    case Some(name) => Ok(Path(objDir.absolute, objDir.comps + [name + "." + LuaFile.ObjectExt(msvc)]))
  }

  /** One source: compiled with the arguments of `LuaFile.CompileArgs`; the
      exit status is ignored, and a compiler that cannot be started
      aborts. */
  function CompileOne(p: Project, compiler: string, objDir: Path, exec: Exec, file: Path): (r: Result<string, Error>)
    ensures r.Err? ==> r.error.Panic?
    ensures r.Ok? <==> ObjectFor(objDir, file, p.msvc).Ok?
                       && exec(Invocation(compiler, LuaFile.CompileArgs(p.opts, p.msvc, ObjectFor(objDir, file, p.msvc).value, file))).Spawned?
    ensures r.Ok? ==> r.value == Render(ObjectFor(objDir, file, p.msvc).value)
  {
    var obj :- ObjectFor(objDir, file, p.msvc);
    var inv := Invocation(compiler, LuaFile.CompileArgs(p.opts, p.msvc, obj, file));
    var _ :- Run(UnwrapStatus, inv, exec(inv));
    Ok(Render(obj))
  }

  function CompileEach(p: Project, compiler: string, objDir: Path, exec: Exec): Path -> Result<string, Error> {
    file => CompileOne(p, compiler, objDir, exec, file)
  }

  /** The link arguments: the objects; each library (as given with MSVC,
      as "-l<lib>" otherwise); "/link" with MSVC; the output
      ("/out:<out>/<output>" or "-o<out>/<output>"); the linker flags; and
      each library path ("/LIBPATH:" or "-L") last. */
  function LinkArgs(o: Toolchain.Options, msvc: bool, objects: seq<string>, outDir: Path, output: string): (r: seq<string>)
    ensures |r| == |objects| + |o.libs| + (if msvc then 2 else 1) + |o.linkerFlags| + |o.libPaths|
    ensures r[..|objects|] == objects
  {
    var libs := if msvc then o.libs else Toolchain.Prefixed("-l", o.libs);
    var out := if msvc then ["/link", "/out:" + Render(outDir) + "/" + output]
               else [Toolchain.OutputArg(outDir, output)];
    var paths := Toolchain.Prefixed(if msvc then "/LIBPATH:" else "-L", o.libPaths);
    assert (objects + libs + out + o.linkerFlags + paths)[..|objects|] == objects;
    objects + libs + out + o.linkerFlags + paths
  }

  /** The same arguments as the single-script revision's link, in another
      order: there the library paths come before the linker flags (and,
      for GCC, before the libraries). */
  lemma LinkArgsReordered(o: Toolchain.Options, msvc: bool, objects: seq<string>, outDir: Path, output: string)
    ensures multiset(LinkArgs(o, msvc, objects, outDir, output)) == multiset(LuaFile.LinkArgs(o, msvc, objects, outDir, output))
  {
    var libs := if msvc then o.libs else Toolchain.Prefixed("-l", o.libs);
    var out := if msvc then ["/link", "/out:" + Render(outDir) + "/" + output]
               else [Toolchain.OutputArg(outDir, output)];
    var paths := Toolchain.Prefixed(if msvc then "/LIBPATH:" else "-L", o.libPaths);
    var flags := o.linkerFlags;
    var mine := LinkArgs(o, msvc, objects, outDir, output);
    var theirs := LuaFile.LinkArgs(o, msvc, objects, outDir, output);
    assert mine == objects + libs + out + flags + paths;
    if msvc {
      assert theirs == LuaFile.MsvcLinkArgs(o, objects, outDir, output);
      assert theirs == objects + libs + out + paths + flags;
    } else {
      assert theirs == objects + paths + libs + out + flags;
    }
  }

  /** `build`. No compiler or no linker aborts. A missing `arch`, `target`
      or `configuration` builds nothing (None). Otherwise the directories
      are named after `arch-target-configuration`, every source is
      compiled, the objects are linked, and the stored assets are checked
      and copied in order. Tool exit statuses are ignored; a tool that
      cannot be started aborts. */
  function Build(p: Project, exec: Exec): (r: Result<Option<seq<Copy>>, Error>)
    ensures p.compiler.None? ==> r.Err? && r.error.Panic?
    ensures p.compiler.Some? && p.linker.None? ==> r.Err? && r.error.Panic?
    ensures p.compiler.Some? && p.linker.Some? && (p.arch.None? || p.target.None? || p.configuration.None?) ==> r == Ok(None)
    ensures r.Err? ==> r.error.Panic?
    ensures r.Ok? && r.value.Some? ==>
              var outDir := Toolchain.BuildDir(p.numakeDir, "out", Config(p).value);
              && |r.value.value| == |p.assets|
              && forall i :: 0 <= i < |p.assets| ==> AssetCheck(p.workdir, outDir, p.assets[i]) == Ok(r.value.value[i])
  {
    if p.compiler.None? then Err(Panic("ERROR: NO COMPILER SPECIFIED!"))
    else if p.linker.None? then Err(Panic("ERROR: NO LINKER SPECIFIED!"))
    else match Config(p)
      case None => Ok(None)
      case Some(config) =>
        var objDir := Toolchain.BuildDir(p.numakeDir, "obj", config);
        var outDir := Toolchain.BuildDir(p.numakeDir, "out", config);
        var objects :- FailFast.Traverse(p.files, CompileEach(p, p.compiler.value, objDir, exec));
        var link := Invocation(p.linker.value, LinkArgs(p.opts, p.msvc, objects, outDir, p.output));
        var _ :- Run(UnwrapStatus, link, exec(link));
        var copies :- FailFast.Traverse(p.assets, AssetChecker(p.workdir, outDir));
        Ok(Some(copies))
  }

  /** `arch-target-configuration`, when all three are set. */
  function Config(p: Project): (r: Option<string>)
    ensures r.Some? <==> p.arch.Some? && p.target.Some? && p.configuration.Some?
    ensures r.Some? ==> r.value == p.arch.value + "-" + p.target.value + "-" + p.configuration.value
  {
    if p.arch.None? || p.target.None? || p.configuration.None? then None
    else Some(p.arch.value + "-" + p.target.value + "-" + p.configuration.value)
  }

  /** With both tools set and started every time, and the configuration
      complete, the build succeeds exactly when every source has a file
      name and every stored asset passes its check; the exit statuses do
      not matter. */
  lemma {:induction false} BuildSucceeds(p: Project, exec: Exec)
    requires p.compiler.Some? && p.linker.Some? && Config(p).Some?
    requires forall inv :: exec(inv).Spawned?
    ensures var outDir := Toolchain.BuildDir(p.numakeDir, "out", Config(p).value);
            Build(p, exec).Ok? <==>
              && (forall i :: 0 <= i < |p.files| ==> FileName(p.files[i]).Some?)
              && (forall i :: 0 <= i < |p.assets| ==> AssetCheck(p.workdir, outDir, p.assets[i]).Ok?)
  {
    var objDir := Toolchain.BuildDir(p.numakeDir, "obj", Config(p).value);
    var outDir := Toolchain.BuildDir(p.numakeDir, "out", Config(p).value);
    var each := CompileEach(p, p.compiler.value, objDir, exec);
    assert forall i :: 0 <= i < |p.files| ==> (each(p.files[i]).Ok? <==> FileName(p.files[i]).Some?);
    var objects := FailFast.Traverse(p.files, each);
    if objects.Ok? {
      var link := Invocation(p.linker.value, LinkArgs(p.opts, p.msvc, objects.value, outDir, p.output));
      assert Process.Run(UnwrapStatus, link, exec(link)).Ok?;
      var copies := FailFast.Traverse(p.assets, AssetChecker(p.workdir, outDir));
      assert Build(p, exec).Ok? <==> copies.Ok?;
    }
  }
}
