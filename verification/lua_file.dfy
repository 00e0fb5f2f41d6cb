/** The single-script workspace (`LuaFile`, `src/lua_file.rs`). It has
    one build script, one flat target type (`ScriptTargets.Target`), a
    size-keyed cache of the script's bytecode, and a build that compiles,
    links and copies assets. This revision runs every tool only for its
    exit status and never looks at that status. Only a program that
    cannot be started stops the build. */
module LuaFile {
  import opened Wrappers
  import opened Errors
  import opened Paths
  import opened Process
  import opened Assets
  import opened Toolchain
  import opened Toml
  import CacheStore
  import FailFast
  import ScriptTargets
  import Targets
  import OldTargets
  import Strings

  type Target = ScriptTargets.Target

  datatype LuaFile = LuaFile(
    targets: map<string, Target>,
    file: Path,
    numakeDir: Path,
    workdir: Path,
    target: string,
    output: Option<string>,
    compiler: Option<string>,
    linker: Option<string>,
    arguments: seq<string>,
    msvc: bool)

  /** The command line a workspace is made from. */
  datatype Args = Args(
    workdir: Path,
    file: string,
    target: string,
    compiler: Option<string>,
    linker: Option<string>,
    output: Option<string>,
    arguments: Option<seq<string>>,
    msvc: bool)

  /** `LuaFile::new`: canonicalise the working directory and the script
      joined onto it (a missing path is an I/O error). Whether the script
      lies in the working directory is checked only by `process`. */
  function New(args: Args, canon: Path -> Option<Path>): (r: Result<LuaFile, Error>)
    ensures r.Ok? <==> canon(args.workdir).Some? && canon(Join(canon(args.workdir).value, Parse(args.file))).Some?
    ensures r.Err? ==> r.error == IoError
    ensures r.Ok? ==>
              && r.value.workdir == canon(args.workdir).value
              && r.value.file == canon(Join(r.value.workdir, Parse(args.file))).value
              && r.value.numakeDir == Join(r.value.workdir, Parse(".numake"))
              && r.value.targets == map[]
              && r.value.arguments == args.arguments.GetOr([])
              && r.value.target == args.target && r.value.msvc == args.msvc
  {
    match canon(args.workdir)
    case None => Err(IoError)
    case Some(wd) =>
      match canon(Join(wd, Parse(args.file)))
      case None => Err(IoError)
      case Some(file) =>
        Ok(LuaFile(map[], file, Join(wd, Parse(".numake")), wd, args.target, args.output,
                   args.compiler, args.linker, args.arguments.GetOr([]), args.msvc))
  }

  /** `create_target(name)`: a fresh target in the working directory that
      inherits the workspace's tool, MSVC and output settings. */
  function CreateTarget(lf: LuaFile, name: string): (t: Target)
    ensures t.name == name && t.workdir == lf.workdir && t.files == [] && t.assets == map[]
    ensures t.compiler == lf.compiler && t.linker == lf.linker && t.msvc == lf.msvc && t.output == lf.output
  {
    ScriptTargets.New(name, lf.compiler, lf.linker, lf.msvc, lf.output, lf.workdir)
  }

  /** `register_target(target)`: stored under the target's own name,
      replacing an earlier target of that name. */
  function RegisterTarget(lf: LuaFile, t: Target): (r: LuaFile)
    ensures t.name in r.targets && r.targets[t.name] == t
    ensures r.targets.Keys == lf.targets.Keys + {t.name}
    ensures forall n :: n in lf.targets && n != t.name ==> r.targets[n] == lf.targets[n]
    ensures r == lf.(targets := r.targets)
  {
    lf.(targets := lf.targets[t.name := t])
  }

  // ----- Compiling and linking one target -----

  /** The object file extension: "obj" with MSVC, "o" otherwise. */
  function ObjectExt(msvc: bool): string {
    if msvc then "obj" else "o"
  }

  /** The object file as written: the object directory's text, '/', the
      source's file name ("ERROR" when it has none) and the extension. Only
      the file name is used, so two sources with the same name in
      different directories share one object file; no source is refused. */
  function ObjectNameAsWritten(objDir: Path, file: Path, msvc: bool): (r: Path)
    ensures r.absolute == objDir.absolute
    ensures |r.comps| == |objDir.comps| + 1 && r.comps[..|objDir.comps|] == objDir.comps
    ensures FileName(file).Some? ==> r.comps[|objDir.comps|] == FileName(file).value + "." + ObjectExt(msvc)
    ensures FileName(file).None? ==> r.comps[|objDir.comps|] == "ERROR." + ObjectExt(msvc)
  {
    Path(objDir.absolute, objDir.comps + [FileName(file).GetOr("ERROR") + "." + ObjectExt(msvc)])
  }

  /** `src/a/x.c` and `src/b/x.c` are compiled into the same object. The
      second compile overwrites the first, and the link receives the same
      object twice; the first source never reaches the output. */
  lemma ObjectNamesCollideAsWritten(objDir: Path, msvc: bool)
    ensures var f := Path(true, ["w", "src", "a", "x.c"]);
            var g := Path(true, ["w", "src", "b", "x.c"]);
            f != g && ObjectNameAsWritten(objDir, f, msvc) == ObjectNameAsWritten(objDir, g, msvc)
  {
  }

  /** The corrected object file, as the later revisions name it: the
      source's path relative to the working directory, with the extension
      appended, under the object directory. */
  function ObjectName(objDir: Path, wd: Path, file: Path, msvc: bool): (r: Option<Path>)
    ensures r == ObjectFile(objDir, wd, file, "." + ObjectExt(msvc))
  {
    ObjectFile(objDir, wd, file, "." + ObjectExt(msvc))
  }

  /** A source outside the working directory still has a corrected name:
      `diff_paths` reaches it through `..`. */
  lemma OutsideSourceHasName(objDir: Path, msvc: bool)
    ensures ObjectName(objDir, Path(true, ["p"]), Path(true, ["q", "x.c"]), msvc).Some?
  {
  }

  /** With the corrected names, two different sources in the working
      directory never share an object. */
  lemma ObjectNamesDistinct(objDir: Path, wd: Path, f: Path, g: Path, msvc: bool)
    requires StartsWith(f, wd) && |f.comps| > |wd.comps|
    requires StartsWith(g, wd) && |g.comps| > |wd.comps|
    requires f != g
    ensures ObjectName(objDir, wd, f, msvc).Some? && ObjectName(objDir, wd, g, msvc).Some?
    ensures ObjectName(objDir, wd, f, msvc) != ObjectName(objDir, wd, g, msvc)
  {
    ObjectFilesDistinct(objDir, wd, f, g, "." + ObjectExt(msvc));
  }

  /** The compile command of one source: "-c", the object (as "-Fo:<obj>"
      with MSVC, "-o<obj>" otherwise), "-I" for every include path, "-D"
      for every define, the compiler flags, and the source last. Apart from
      the object argument this is the GCC-style command of the later
      revisions (`Toolchain.CompileArgs`). */
  function CompileArgs(o: Options, msvc: bool, obj: Path, file: Path): (r: seq<string>)
    ensures !msvc ==> r == Toolchain.CompileArgs(o, obj, file)
    ensures msvc ==> r == ["-c", "-Fo:" + Render(obj)] + Toolchain.CompileArgs(o, obj, file)[2..]
  {
    var tail := Prefixed("-I", o.includePaths) + Prefixed("-D", o.defines) + o.compilerFlags + [Render(file)];
    assert Toolchain.CompileArgs(o, obj, file)[2..] == tail;
    ["-c", (if msvc then "-Fo:" else "-o") + Render(obj)] + tail
  }

  /** The link command's arguments: the objects; then, for GCC, "-L" per
      library path, "-l" per library and `-o<out>/<output>`; for MSVC, the
      libraries as given, "/link", `/out:<out>/<output>` and "/LIBPATH:"
      per library path; the linker flags last. The GCC form is exactly the
      link of the first workspace revision (`OldTargets.LinkArgs`). */
  function LinkArgs(o: Options, msvc: bool, objects: seq<string>, outDir: Path, output: string): (r: seq<string>)
    ensures !msvc ==> r == OldTargets.LinkArgs(o, objects, outDir, output)
    ensures msvc ==>
              && |r| == |objects| + |o.libs| + 2 + |o.libPaths| + |o.linkerFlags|
              && r[..|objects|] == objects
              && r[|objects|..|objects| + |o.libs|] == o.libs
              && r[|objects| + |o.libs|] == "/link"
              && r[|objects| + |o.libs| + 1] == "/out:" + Render(outDir) + "/" + output
              && r[|objects| + |o.libs| + 2..|r| - |o.linkerFlags|] == Prefixed("/LIBPATH:", o.libPaths)
              && r[|r| - |o.linkerFlags|..] == o.linkerFlags
  {
    if !msvc then
      objects + Prefixed("-L", o.libPaths) + Prefixed("-l", o.libs) + [OutputArg(outDir, output)] + o.linkerFlags
    else
      MsvcLinkArgs(o, objects, outDir, output)
  }

  function MsvcLinkArgs(o: Options, objects: seq<string>, outDir: Path, output: string): (r: seq<string>)
    ensures |r| == |objects| + |o.libs| + 2 + |o.libPaths| + |o.linkerFlags|
    ensures r[..|objects|] == objects
    ensures r[|objects|..|objects| + |o.libs|] == o.libs
    ensures r[|objects| + |o.libs|] == "/link"
    ensures r[|objects| + |o.libs| + 1] == "/out:" + Render(outDir) + "/" + output
    ensures r[|objects| + |o.libs| + 2..|r| - |o.linkerFlags|] == Prefixed("/LIBPATH:", o.libPaths)
    ensures r[|r| - |o.linkerFlags|..] == o.linkerFlags
  {
    var head := objects + o.libs;
    var mid := head + ["/link", "/out:" + Render(outDir) + "/" + output];
    var paths := mid + Prefixed("/LIBPATH:", o.libPaths);
    assert head[..|objects|] == objects;
    assert mid[..|head|] == head;
    assert paths[..|mid|] == mid;
    assert (paths + o.linkerFlags)[..|paths|] == paths;
    assert paths[|mid|..] == Prefixed("/LIBPATH:", o.libPaths);
    paths + o.linkerFlags
  }

  /** One source: the compiler runs for its exit status only, and the
      object is named after the source's file name (`ObjectNameAsWritten`),
      so every source gets an object and none aborts the build. */
  function CompileOne(t: Target, objDir: Path, compiler: string, exec: Exec, file: Path): (r: Result<string, Error>)
    ensures var obj := ObjectNameAsWritten(objDir, file, t.msvc);
            var inv := Invocation(compiler, CompileArgs(t.opts, t.msvc, obj, file));
            && (r.Ok? <==> exec(inv).Spawned?)
            && (r.Ok? ==> r.value == Render(obj))
            && (r.Err? ==> r == Err(SpawnFailed(compiler)))
  {
    var obj := ObjectNameAsWritten(objDir, file, t.msvc);
    var inv := Invocation(compiler, CompileArgs(t.opts, t.msvc, obj, file));
    var _ :- Run(StatusOnly, inv, exec(inv));
    Ok(Render(obj))
  }

  function CompileEach(t: Target, objDir: Path, compiler: string, exec: Exec): Path -> Result<string, Error> {
    file => CompileOne(t, objDir, compiler, exec, file)
  }

  /** The asset copies of a target: each destination is joined onto the
      output directory and must stay below it, else `AssetInvalidDestination`.
      Each source is the text the script wrote, taken as a path. */
  function CopyAssets(assets: map<string, string>, outDir: Path): (r: Result<set<Copy>, Error>)
    ensures r.Ok? <==> forall k :: k in assets ==> Inside(outDir, Parse(assets[k]))
    ensures r.Err? ==> r.error == AssetInvalidDestination
    ensures r.Ok? ==> forall k :: k in assets ==> Copy(Parse(k), Join(outDir, Parse(assets[k]))) in r.value
    ensures r.Ok? ==> forall c :: c in r.value ==> StartsWith(c.to, outDir)
  {
    if forall k :: k in assets ==> Inside(outDir, Parse(assets[k])) then
      Ok(set k | k in assets :: Copy(Parse(k), Join(outDir, Parse(assets[k]))))
    else Err(AssetInvalidDestination)
  }

  /** What building target `t` in the directories of `dirName` does. The
      tools and the output name come from the workspace when it sets them,
      and from the target otherwise; a missing tool is run as the program
      "NULL". Every source is compiled, the objects are linked, and the
      assets are copied. */
  function BuildOne(lf: LuaFile, t: Target, dirName: string, exec: Exec): (r: Result<set<Copy>, Error>)
    ensures r.Ok? ==> r == CopyAssets(t.assets, BuildDir(lf.numakeDir, "out", dirName))
  {
    var objDir := BuildDir(lf.numakeDir, "obj", dirName);
    var outDir := BuildDir(lf.numakeDir, "out", dirName);
    var compiler := Targets.Override(lf.compiler, t.compiler).GetOr("NULL");
    var linker := Targets.Override(lf.linker, t.linker).GetOr("NULL");
    var output := Targets.Override(lf.output, t.output).GetOr("out");
    var objects :- FailFast.Traverse(t.files, CompileEach(t, objDir, compiler, exec));
    var link := Invocation(linker, LinkArgs(t.opts, t.msvc, objects, outDir, output));
    var _ :- Run(StatusOnly, link, exec(link));
    CopyAssets(t.assets, outDir)
  }

  /** No exit status matters. When every program starts, building a
      target is exactly its asset copy, even if every compiler and the
      linker fail. */
  lemma {:induction false} StatusesIgnored(lf: LuaFile, t: Target, dirName: string, exec: Exec)
    requires forall inv :: exec(inv).Spawned?
    ensures BuildOne(lf, t, dirName, exec) == CopyAssets(t.assets, BuildDir(lf.numakeDir, "out", dirName))
  {
    var objDir := BuildDir(lf.numakeDir, "obj", dirName);
    var compiler := Targets.Override(lf.compiler, t.compiler).GetOr("NULL");
    var each := CompileEach(t, objDir, compiler, exec);
    forall i | 0 <= i < |t.files|
      ensures each(t.files[i]).Ok?
    {
      var obj := ObjectNameAsWritten(objDir, t.files[i], t.msvc);
      assert exec(Invocation(compiler, CompileArgs(t.opts, t.msvc, obj, t.files[i]))).Spawned?;
    }
  }

  /** A target builds exactly when every compiler it runs starts, the
      linker starts with every source's object in list order, and every
      asset destination stays in the output directory. */
  lemma {:induction false} BuildOneSucceeds(lf: LuaFile, t: Target, dirName: string, exec: Exec)
    ensures var objDir := BuildDir(lf.numakeDir, "obj", dirName);
            var outDir := BuildDir(lf.numakeDir, "out", dirName);
            var compiler := Targets.Override(lf.compiler, t.compiler).GetOr("NULL");
            var linker := Targets.Override(lf.linker, t.linker).GetOr("NULL");
            var objects := seq(|t.files|, i requires 0 <= i < |t.files| => Render(ObjectNameAsWritten(objDir, t.files[i], t.msvc)));
            var link := Invocation(linker, LinkArgs(t.opts, t.msvc, objects, outDir,
                                                    Targets.Override(lf.output, t.output).GetOr("out")));
            BuildOne(lf, t, dirName, exec).Ok? <==>
              && (forall i :: 0 <= i < |t.files| ==>
                    exec(Invocation(compiler, CompileArgs(t.opts, t.msvc, ObjectNameAsWritten(objDir, t.files[i], t.msvc), t.files[i]))).Spawned?)
              && exec(link).Spawned?
              && (forall k :: k in t.assets ==> Inside(outDir, Parse(t.assets[k])))
  {
    var objDir := BuildDir(lf.numakeDir, "obj", dirName);
    var compiler := Targets.Override(lf.compiler, t.compiler).GetOr("NULL");
    var each := CompileEach(t, objDir, compiler, exec);
    var compiled := FailFast.Traverse(t.files, each);
    assert (forall i :: 0 <= i < |t.files| ==> each(t.files[i]).Ok?) <==>
           (forall i :: 0 <= i < |t.files| ==>
              exec(Invocation(compiler, CompileArgs(t.opts, t.msvc, ObjectNameAsWritten(objDir, t.files[i], t.msvc), t.files[i]))).Spawned?);
    if compiled.Ok? {
      var objects := seq(|t.files|, i requires 0 <= i < |t.files| => Render(ObjectNameAsWritten(objDir, t.files[i], t.msvc)));
      assert compiled.value == objects;
    }
  }

  // ----- build and build_target -----

  /** The names that build every registered target. */
  const Everything: set<string> := {"all", "*"}

  /** `build_target(name)` as written. It checks that `name` is
      registered, but then builds the target registered under the
      workspace's requested target name, in that name's directories. */
  function BuildTargetAsWritten(lf: LuaFile, name: string, exec: Exec): (r: Result<(), Error>)
    ensures name !in lf.targets ==> r == Err(TargetNotFound)
    ensures name in lf.targets && lf.target !in lf.targets ==> r.Err? && r.error.Panic?
    ensures name in lf.targets && lf.target in lf.targets ==>
              && (r.Ok? <==> BuildOne(lf, lf.targets[lf.target], lf.target, exec).Ok?)
              && (r.Err? ==> r.error == BuildOne(lf, lf.targets[lf.target], lf.target, exec).error)
  {
    if name !in lf.targets then Err(TargetNotFound)
    else if lf.target !in lf.targets then Err(Panic("targets.get(&self.target).unwrap() on an unregistered name"))
    else
      var _ :- BuildOne(lf, lf.targets[lf.target], lf.target, exec);
      Ok(())
  }

  /** The corrected `build_target(name)`: the target registered under
      `name`, built in the directories of `name`. */
  function BuildTarget(lf: LuaFile, name: string, exec: Exec): (r: Result<(), Error>)
    ensures name !in lf.targets ==> r == Err(TargetNotFound)
    ensures name in lf.targets ==> (r.Ok? <==> BuildOne(lf, lf.targets[name], name, exec).Ok?)
    ensures name in lf.targets && r.Err? ==> r.error == BuildOne(lf, lf.targets[name], name, exec).error
  {
    if name !in lf.targets then Err(TargetNotFound)
    else
      var _ :- BuildOne(lf, lf.targets[name], name, exec);
      Ok(())
  }

  /** `build`: "all" and "*" build every registered name in the map's
      iteration order (`order`), stopping at the first failure; any other
      name builds that target. */
  function BuildWith(lf: LuaFile, order: seq<string>, build: string -> Result<(), Error>): Result<(), Error>
    requires IsEnumeration(order, lf.targets.Keys)
  {
    if lf.target in Everything then
      match FailFast.Traverse(order, build)
      case Ok(_) => Ok(())
      case Err(e) => Err(e)
    else build(lf.target)
  }

  function BuildAsWritten(lf: LuaFile, order: seq<string>, exec: Exec): Result<(), Error>
    requires IsEnumeration(order, lf.targets.Keys)
  {
    BuildWith(lf, order, n => BuildTargetAsWritten(lf, n, exec))
  }

  function Build(lf: LuaFile, order: seq<string>, exec: Exec): Result<(), Error>
    requires IsEnumeration(order, lf.targets.Keys)
  {
    BuildWith(lf, order, n => BuildTarget(lf, n, exec))
  }

  /** As written, `build` with "all" (or "*") aborts as soon as any target
      is registered, unless one is registered under that very name. In
      that case it builds that one target once per registered target. */
  lemma BuildAllAsWritten(lf: LuaFile, order: seq<string>, exec: Exec)
    requires IsEnumeration(order, lf.targets.Keys)
    requires lf.target in Everything && |order| > 0
    ensures lf.target !in lf.targets ==> BuildAsWritten(lf, order, exec).Err? && BuildAsWritten(lf, order, exec).error.Panic?
    ensures lf.target in lf.targets ==>
              forall n :: n in lf.targets ==> BuildTargetAsWritten(lf, n, exec) == BuildTargetAsWritten(lf, lf.target, exec)
  {
    assert order[0] in lf.targets;
    if lf.target !in lf.targets {
      var f := (n: string) => BuildTargetAsWritten(lf, n, exec);
      assert f(order[0]).Err?;
      assert FailFast.FirstFailure(order, f) == 0;
    }
  }

  /** The two agree whenever a single target is requested by name. */
  lemma SingleTargetAgrees(lf: LuaFile, order: seq<string>, exec: Exec)
    requires IsEnumeration(order, lf.targets.Keys)
    requires lf.target !in Everything
    ensures BuildAsWritten(lf, order, exec) == Build(lf, order, exec)
  {
  }

  /** The corrected `build`: "all" and "*" succeed exactly when every
      registered target builds in its own directories, whatever the
      iteration order, and a failure is some target's failure. Any other
      name builds that target alone, or is `TargetNotFound`. */
  lemma {:induction false} BuildSpec(lf: LuaFile, order: seq<string>, exec: Exec)
    requires IsEnumeration(order, lf.targets.Keys)
    ensures lf.target in Everything ==>
              (Build(lf, order, exec).Ok? <==> forall n :: n in lf.targets ==> BuildOne(lf, lf.targets[n], n, exec).Ok?)
    ensures lf.target in Everything && Build(lf, order, exec).Err? ==>
              exists n :: n in lf.targets && BuildTarget(lf, n, exec) == Build(lf, order, exec)
    ensures lf.target !in Everything && lf.target !in lf.targets ==> Build(lf, order, exec) == Err(TargetNotFound)
    ensures lf.target !in Everything ==> Build(lf, order, exec) == BuildTarget(lf, lf.target, exec)
  {
    var f := (n: string) => BuildTarget(lf, n, exec);
    if lf.target in Everything {
      var t := FailFast.Traverse(order, f);
      if t.Ok? {
        forall n | n in lf.targets
          ensures BuildOne(lf, lf.targets[n], n, exec).Ok?
        {
          assert n in order;
          var i :| 0 <= i < |order| && order[i] == n;
          assert f(order[i]).Ok?;
        }
      } else {
        var k := FailFast.FirstFailure(order, f);
        assert order[k] in lf.targets;
        assert f(order[k]) == Err(t.error);
      }
    }
  }

  // ----- process: the script cache -----

  /** `cache/cache.toml` under the `.numake` directory: absent, present but
      not valid TOML, or a table from script keys to recorded sizes. */
  datatype CacheFile = Absent | Unparsable | Present(table: Toml.Table)

  /** The cache directory: the TOML file and the bytecode blobs by name. */
  datatype ScriptDir = ScriptDir(toml: CacheFile, blobs: map<string, CacheStore.Bytes>)

  /** The key text is the UUID (version 8) built from the last 16 bytes of
      the script's path in UTF-8 (`as_bytes().last_chunk::<16>()`); `uuid`
      stands for that construction, whatever it is. A path shorter than 16
      bytes has no key. */
  function Tail(path: string): (r: Option<seq<Strings.Octet>>)
    ensures r.Some? <==> |Strings.Utf8(path)| >= 16
    ensures r.Some? ==> |r.value| == 16 && Strings.Utf8(path) == Strings.Utf8(path)[..|Strings.Utf8(path)| - 16] + r.value
  {
    var bytes := Strings.Utf8(path);
    if |bytes| < 16 then None else Some(bytes[|bytes| - 16..])
  }

  /** On an ASCII path the bytes are the characters, so the key exists
      exactly when the path has at least 16 characters. */
  lemma AsciiTail(path: string)
    requires forall i :: 0 <= i < |path| ==> path[i] as int < 0x80
    ensures Tail(path).Some? <==> |path| >= 16
  {
    Strings.Utf8Ascii(path);
  }

  /** A path of fewer than 16 characters can still have a key: six
      two-byte characters and six slashes make 18 bytes. */
  lemma ShortPathHasKey(p: string)
    requires p == "/\U{e9}/\U{e9}/\U{e9}/\U{e9}/\U{e9}/\U{e9}"
    ensures |p| == 12 && Tail(p).Some?
  {
    var q := p[..2];
    assert |Strings.Utf8(q)| == 3 by {
      assert q[1..][1..] == [];
      assert Strings.Utf8(q) == Strings.Utf8Char(q[0]) + Strings.Utf8Char(q[1]) + Strings.Utf8([]);
    }
    Strings.Utf8Append(q, q);
    Strings.Utf8Append(q + q, q);
    Strings.Utf8Append(q + q + q, q + q + q);
    assert p == q + q + q + (q + q + q);
  }

  /** The blob holding a key's bytecode. */
  function Blob(key: string): string {
    key + ".nucache"
  }

  /** The cache is warm for `key` at `size`: the table records the size and
      the blob exists. */
  predicate Warm(d: ScriptDir, key: string, size: string) {
    d.toml.Present? && key in d.toml.table && d.toml.table[key] == Str(size) && Blob(key) in d.blobs
  }

  /** `process` finds the cache usable: the table it works on records
      the size, and the blob exists. When the cache file is absent but a
      stale blob is left over, that blob counts as a hit. */
  predicate Hit(d: ScriptDir, key: string, size: string) {
    TableOf(d, key, size).Ok? && Warm(d.(toml := Present(TableOf(d, key, size).value)), key, size)
  }

  /** The table `process` works on. An absent file is first created
      holding just this key at the current size. */
  function TableOf(d: ScriptDir, key: string, size: string): (r: Result<Toml.Table, Error>)
    ensures d.toml.Absent? ==> r == Ok(map[key := Str(size)])
    ensures d.toml.Unparsable? ==> r == Err(ParseError)
    ensures d.toml.Present? ==> r == Ok(d.toml.table)
  {
    match d.toml
    case Absent => Ok(map[key := Str(size)])
    case Unparsable => Err(ParseError)
    case Present(table) => Ok(table)
  }

  /** Run the script through the cache once the table is known. With the
      size recorded and the blob present, the stored bytecode runs and
      nothing is written. Otherwise the source runs; only when it succeeds
      is the bytecode stored and the size recorded. The targets the script
      registered are copied back. */
  function RunCached(lf: LuaFile, d: ScriptDir, key: string, table: Toml.Table, size: string, source: CacheStore.Bytes,
                     run: CacheStore.Bytes -> Result<map<string, Target>, Error>,
                     compile: CacheStore.Bytes -> CacheStore.Bytes): (r: Result<(LuaFile, ScriptDir), Error>)
    ensures r.Ok? ==> r.value.0 == lf.(targets := r.value.0.targets)
    ensures r.Ok? ==> Warm(r.value.1, key, size)
    ensures Warm(d.(toml := Present(table)), key, size) ==>
              r == match run(d.blobs[Blob(key)])
                   case Ok(ts) => Ok((lf.(targets := ts), d.(toml := Present(table))))
                   case Err(e) => Err(e)
    ensures !Warm(d.(toml := Present(table)), key, size) ==>
              r == match run(source)
                   case Ok(ts) => Ok((lf.(targets := ts),
                                      ScriptDir(Present(table[key := Str(size)]), d.blobs[Blob(key) := compile(source)])))
                   case Err(e) => Err(e)
  {
    var dir := d.(toml := Present(table));
    if Warm(dir, key, size) then
      var ts :- run(d.blobs[Blob(key)]);
      Ok((lf.(targets := ts), dir))
    else
      var ts :- run(source);
      Ok((lf.(targets := ts), ScriptDir(Present(table[key := Str(size)]), d.blobs[Blob(key) := compile(source)])))
  }

  /** `process` as written. The script must lie in the working directory,
      and its path must be at least 16 bytes long in UTF-8. The table is then
      indexed with the script's key, and that indexing aborts when the key
      is missing. A missing key happens whenever the cache file was
      created for another script in the same working directory. */
  function ProcessScriptAsWritten(lf: LuaFile, d: ScriptDir, uuid: seq<Strings.Octet> -> string, size: string, source: CacheStore.Bytes,
                            run: CacheStore.Bytes -> Result<map<string, Target>, Error>,
                            compile: CacheStore.Bytes -> CacheStore.Bytes): (r: Result<(LuaFile, ScriptDir), Error>)
    ensures !StartsWith(lf.file, lf.workdir) ==> r == Err(PathOutsideWorkingDirectory)
    ensures StartsWith(lf.file, lf.workdir) && Tail(Render(lf.file)).None? ==> r.Err? && r.error.Panic?
    ensures (&& StartsWith(lf.file, lf.workdir) && Tail(Render(lf.file)).Some? && d.toml.Present?
             && uuid(Tail(Render(lf.file)).value) !in d.toml.table) ==> r.Err? && r.error.Panic?
  {
    if !StartsWith(lf.file, lf.workdir) then Err(PathOutsideWorkingDirectory)
    else
      match Tail(Render(lf.file))
      case None => Err(Panic("last_chunk::<16>().unwrap() on a path shorter than 16 bytes"))
      case Some(tail) =>
        var key := uuid(tail);
        var table :- TableOf(d, key, size);
        if key !in table then Err(Panic("cache table indexed with a missing key"))
        else RunCached(lf, d, key, table, size, source, run, compile)
  }

  /** The corrected `process`: a key the table does not hold is a cache
      miss, like a changed size. */
  function ProcessScript(lf: LuaFile, d: ScriptDir, uuid: seq<Strings.Octet> -> string, size: string, source: CacheStore.Bytes,
                   run: CacheStore.Bytes -> Result<map<string, Target>, Error>,
                   compile: CacheStore.Bytes -> CacheStore.Bytes): (r: Result<(LuaFile, ScriptDir), Error>)
    ensures !StartsWith(lf.file, lf.workdir) ==> r == Err(PathOutsideWorkingDirectory)
    ensures StartsWith(lf.file, lf.workdir) && Tail(Render(lf.file)).None? ==> r.Err? && r.error.Panic?
    ensures r.Ok? ==> r.value.0 == lf.(targets := r.value.0.targets)
    ensures r.Ok? ==> Warm(r.value.1, uuid(Tail(Render(lf.file)).value), size)
  {
    if !StartsWith(lf.file, lf.workdir) then Err(PathOutsideWorkingDirectory)
    else
      match Tail(Render(lf.file))
      case None => Err(Panic("last_chunk::<16>().unwrap() on a path shorter than 16 bytes"))
      case Some(tail) =>
        var key := uuid(tail);
        var table :- TableOf(d, key, size);
        RunCached(lf, d, key, table, size, source, run, compile)
  }

  /** A second script in a working directory whose cache file was made for
      another script aborts as written. Corrected, it runs from source and
      succeeds whenever its source runs. */
  lemma MissingKeyAsWritten(lf: LuaFile, d: ScriptDir, uuid: seq<Strings.Octet> -> string, size: string, source: CacheStore.Bytes,
                            run: CacheStore.Bytes -> Result<map<string, Target>, Error>,
                            compile: CacheStore.Bytes -> CacheStore.Bytes)
    requires StartsWith(lf.file, lf.workdir) && Tail(Render(lf.file)).Some?
    requires d.toml.Present? && uuid(Tail(Render(lf.file)).value) !in d.toml.table
    ensures ProcessScriptAsWritten(lf, d, uuid, size, source, run, compile).Err?
    ensures ProcessScriptAsWritten(lf, d, uuid, size, source, run, compile).error.Panic?
    ensures run(source).Ok? ==>
              ProcessScript(lf, d, uuid, size, source, run, compile) ==
                Ok((lf.(targets := run(source).value),
                    ScriptDir(Present(d.toml.table[uuid(Tail(Render(lf.file)).value) := Str(size)]),
                              d.blobs[Blob(uuid(Tail(Render(lf.file)).value)) := compile(source)])))
  {
  }

  /** Wherever the written version does not abort on a missing key, the two
      agree. */
  lemma ProcessAgrees(lf: LuaFile, d: ScriptDir, uuid: seq<Strings.Octet> -> string, size: string, source: CacheStore.Bytes,
                      run: CacheStore.Bytes -> Result<map<string, Target>, Error>,
                      compile: CacheStore.Bytes -> CacheStore.Bytes)
    requires StartsWith(lf.file, lf.workdir) && Tail(Render(lf.file)).Some?
    requires d.toml.Present? ==> uuid(Tail(Render(lf.file)).value) in d.toml.table
    ensures ProcessScriptAsWritten(lf, d, uuid, size, source, run, compile) == ProcessScript(lf, d, uuid, size, source, run, compile)
  {
  }

  /** Round trip: after a run from source, processing the same script at
      the same size replays exactly the compiled source. It touches
      nothing in the cache, and it ignores the source text and the
      compiler it is given. */
  lemma SecondRunReplays(lf: LuaFile, d: ScriptDir, uuid: seq<Strings.Octet> -> string, size: string, source: CacheStore.Bytes,
                         run: CacheStore.Bytes -> Result<map<string, Target>, Error>,
                         compile: CacheStore.Bytes -> CacheStore.Bytes,
                         source2: CacheStore.Bytes, run2: CacheStore.Bytes -> Result<map<string, Target>, Error>,
                         compile2: CacheStore.Bytes -> CacheStore.Bytes)
    requires ProcessScript(lf, d, uuid, size, source, run, compile).Ok?
    requires !Hit(d, uuid(Tail(Render(lf.file)).value), size)
    ensures var after := ProcessScript(lf, d, uuid, size, source, run, compile).value;
            ProcessScript(after.0, after.1, uuid, size, source2, run2, compile2) ==
              match run2(compile(source))
              case Ok(ts) => Ok((lf.(targets := ts), after.1))
              case Err(e) => Err(e)
  {
  }

  /** The key depends only on the last 16 bytes of the path. Two scripts
      with the same tail and the same size therefore share one cache
      entry: once the first has run from source, processing the second
      replays the first script's bytecode, never its own source. */
  lemma SameTailSharesEntry(lf: LuaFile, other: LuaFile, d: ScriptDir, uuid: seq<Strings.Octet> -> string, size: string,
                            source: CacheStore.Bytes, run: CacheStore.Bytes -> Result<map<string, Target>, Error>,
                            compile: CacheStore.Bytes -> CacheStore.Bytes,
                            source2: CacheStore.Bytes, run2: CacheStore.Bytes -> Result<map<string, Target>, Error>,
                            compile2: CacheStore.Bytes -> CacheStore.Bytes)
    requires ProcessScript(lf, d, uuid, size, source, run, compile).Ok?
    requires !Hit(d, uuid(Tail(Render(lf.file)).value), size)
    requires StartsWith(other.file, other.workdir) && Tail(Render(other.file)).Some?
    requires Tail(Render(other.file)) == Tail(Render(lf.file))
    ensures var after := ProcessScript(lf, d, uuid, size, source, run, compile).value;
            ProcessScript(other, after.1, uuid, size, source2, run2, compile2) ==
              match run2(compile(source))
              case Ok(ts) => Ok((other.(targets := ts), after.1))
              case Err(e) => Err(e)
  {
  }

  /** Paths that end in the same text of at least 16 bytes have the same
      key. */
  lemma SharedSuffixSameTail(x: string, y: string, s: string)
    requires |Strings.Utf8(s)| >= 16
    ensures Tail(x + s).Some? && Tail(x + s) == Tail(y + s)
  {
    var us := Strings.Utf8(s);
    Strings.Utf8Append(x, s);
    Strings.Utf8Append(y, s);
    LastSixteen(Strings.Utf8(x), us);
    LastSixteen(Strings.Utf8(y), us);
  }

  lemma LastSixteen(p: seq<Strings.Octet>, q: seq<Strings.Octet>)
    requires |q| >= 16
    ensures (p + q)[|p + q| - 16..] == q[|q| - 16..]
  {
    assert forall i :: |p + q| - 16 <= i < |p + q| ==> (p + q)[i] == q[i - |p|];
  }

  /** A shared ending of 16 characters is at least 16 bytes, so it fixes
      the key. */
  lemma LongSuffixSameTail(x: string, y: string, s: string)
    requires |s| >= 16
    ensures Tail(x + s).Some? && Tail(x + s) == Tail(y + s)
  {
    SharedSuffixSameTail(x, y, s);
  }

  /** Two different paths with the same last 16 bytes exist, for instance
      the same script name in two sibling directories. */
  lemma SameTailExample(a: string, b: string)
    requires a == "/w/one/tools/numake.lua" && b == "/w/two/tools/numake.lua"
    ensures a != b && Tail(a).Some? && Tail(a) == Tail(b)
  {
    var s := a[6..];
    assert s == b[6..] && |s| == 17;
    assert a == a[..6] + s && b == b[..6] + s;
    LongSuffixSameTail(a[..6], b[..6], s);
    assert a[3] != b[3];
  }
}
