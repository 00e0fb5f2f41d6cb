/** The newest revision's generic back-end (`src/lib/compilers/generic.rs`):
    any GCC-compatible compiler and linker named by the build script. Every
    code file is compiled (there is no incremental cache here), then the
    objects are linked and the assets copied; the first failure ends the
    build. */
module GenericCompiler {
  import opened Wrappers
  import opened Errors
  import opened Paths
  import opened Process
  import opened SourceFiles
  import opened Assets
  import opened ProjectData
  import opened Toolchain
  import FailFast

  /** The compile of one source; Ok carries the object file pushed to the
      link list. */
  function CompileOne(p: Project, compiler: string, objDir: Path, projectDir: Path, exec: Exec,
                      file: Path): (r: Result<string, Error>)
    ensures ObjectPath(objDir, projectDir, file).None? ==> r.Err? && r.error.Panic?
    ensures ObjectPath(objDir, projectDir, file).Some? ==>
              var obj := ObjectPath(objDir, projectDir, file).value;
              var run := RunStep(exec, Step(ErrStderr, Invocation(compiler, CompileArgs(OptionsOf(p), obj, file))));
              && (r.Ok? <==> run.Ok?)
              && (r.Ok? ==> r.value == Render(obj))
              && (r.Err? ==> r.error == run.error)
  {
    match ObjectPath(objDir, projectDir, file)
    case None => Err(Panic("diff_paths(...).unwrap() on a source with no relative path"))
    case Some(obj) =>
      var _ :- RunStep(exec, Step(ErrStderr, Invocation(compiler, CompileArgs(OptionsOf(p), obj, file))));
      Ok(Render(obj))
  }

  function CompileEach(p: Project, compiler: string, objDir: Path, projectDir: Path, exec: Exec): Path -> Result<string, Error> {
    file => CompileOne(p, compiler, objDir, projectDir, exec, file)
  }

  /** `compile_step`: the objects of all sources in order, or the first
      failure (a later source is then never compiled). */
  function CompileStep(p: Project, compiler: string, objDir: Path, projectDir: Path, exec: Exec,
                       files: seq<Path>): (r: Result<seq<string>, Error>)
    ensures r.Ok? <==> forall i :: 0 <= i < |files| ==> CompileOne(p, compiler, objDir, projectDir, exec, files[i]).Ok?
    ensures r.Ok? ==> |r.value| == |files| && forall i :: 0 <= i < |files| ==>
              && ObjectPath(objDir, projectDir, files[i]).Some?
              && r.value[i] == Render(ObjectPath(objDir, projectDir, files[i]).value)
    ensures r.Err? ==> exists i :: 0 <= i < |files| && CompileFails(p, compiler, objDir, projectDir, exec, files[i], r.error)
                                  && forall j :: 0 <= j < i ==> CompileOne(p, compiler, objDir, projectDir, exec, files[j]).Ok?
  {
    var r := FailFast.Traverse(files, CompileEach(p, compiler, objDir, projectDir, exec));
    if r.Err? then
      var k := FailFast.FirstFailure(files, CompileEach(p, compiler, objDir, projectDir, exec));
      assert CompileFails(p, compiler, objDir, projectDir, exec, files[k], r.error);
      r
    else r
  }

  predicate CompileFails(p: Project, compiler: string, objDir: Path, projectDir: Path, exec: Exec, file: Path, e: Error) {
    CompileOne(p, compiler, objDir, projectDir, exec, file) == Err(e)
  }

  /** `linking_step`'s arguments: the objects, "-L" for every library path,
      "-l" for every library, the linker flags, and the output last. */
  function LinkArgs(o: Options, objects: seq<string>, outDir: Path, output: string): (r: seq<string>)
    ensures |r| == |objects| + |o.libPaths| + |o.libs| + |o.linkerFlags| + 1
    ensures r[..|objects|] == objects
    ensures forall i :: 0 <= i < |o.libPaths| ==> r[|objects| + i] == "-L" + o.libPaths[i]
    ensures forall i :: 0 <= i < |o.libs| ==> r[|objects| + |o.libPaths| + i] == "-l" + o.libs[i]
    ensures forall i :: 0 <= i < |o.linkerFlags| ==>
              r[|objects| + |o.libPaths| + |o.libs| + i] == o.linkerFlags[i]
    ensures r[|r| - 1] == OutputArg(outDir, output)
  {
    objects + Prefixed("-L", o.libPaths) + Prefixed("-l", o.libs) + o.linkerFlags + [OutputArg(outDir, output)]
  }

  /** `build`: compile, link with output name defaulting to "out", then copy
      the assets (relative to the numake directory) into `out/<name>`. */
  function Build(p: Project, compiler: string, linker: string, env: Env, exec: Exec,
                 canon: Path -> Option<Path>, files: seq<Path>, assets: seq<(string, string)>): (r: Result<seq<Copy>, Error>)
    requires IsEnumeration(files, Bucket(p.sourceFiles, Code))
    requires IsEnumeration(assets, p.assetFiles.Items)
    ensures var objDir := BuildDir(env.numakeDir, "obj", p.name);
            var outDir := BuildDir(env.numakeDir, "out", p.name);
            var compiled := CompileStep(p, compiler, objDir, env.projectDir, exec, files);
            && (compiled.Err? ==> r == Err(compiled.error))
            && (compiled.Ok? ==>
                  var link := RunStep(exec, Step(ErrStderr, Invocation(linker, LinkArgs(OptionsOf(p), compiled.value, outDir, OutputName(p)))));
                  && (link.Err? ==> r == Err(link.error))
                  && (link.Ok? ==> r == CopyAssets(p, env.numakeDir, outDir, canon, assets)))
  {
    var objDir := BuildDir(env.numakeDir, "obj", p.name);
    var outDir := BuildDir(env.numakeDir, "out", p.name);
    var objects :- CompileStep(p, compiler, objDir, env.projectDir, exec, files);
    var _ :- RunStep(exec, Step(ErrStderr, Invocation(linker, LinkArgs(OptionsOf(p), objects, outDir, OutputName(p)))));
    CopyAssets(p, env.numakeDir, outDir, canon, assets)
  }

  /** A build succeeds only if every source compiled, the link succeeded
      and every asset was copied; the link is handed every object in the
      order the sources were compiled. */
  lemma BuildSucceeds(p: Project, compiler: string, linker: string, env: Env, exec: Exec,
                      canon: Path -> Option<Path>, files: seq<Path>, assets: seq<(string, string)>)
    requires IsEnumeration(files, Bucket(p.sourceFiles, Code))
    requires IsEnumeration(assets, p.assetFiles.Items)
    requires Build(p, compiler, linker, env, exec, canon, files, assets).Ok?
    ensures forall f :: f in Bucket(p.sourceFiles, Code) ==>
              CompileOne(p, compiler, BuildDir(env.numakeDir, "obj", p.name), env.projectDir, exec, f).Ok?
    ensures var objDir := BuildDir(env.numakeDir, "obj", p.name);
            var objects := CompileStep(p, compiler, objDir, env.projectDir, exec, files).value;
            var args := LinkArgs(OptionsOf(p), objects, BuildDir(env.numakeDir, "out", p.name), OutputName(p));
            && RunStep(exec, Step(ErrStderr, Invocation(linker, args))).Ok?
            && forall i :: 0 <= i < |files| ==> args[i] == Render(ObjectPath(objDir, env.projectDir, files[i]).value)
    ensures CopyAssets(p, env.numakeDir, BuildDir(env.numakeDir, "out", p.name), canon, assets).Ok?
  {
    var objDir := BuildDir(env.numakeDir, "obj", p.name);
    forall f | f in Bucket(p.sourceFiles, Code)
      ensures CompileOne(p, compiler, objDir, env.projectDir, exec, f).Ok?
    {
      var i :| 0 <= i < |files| && files[i] == f;
    }
    var objects := CompileStep(p, compiler, objDir, env.projectDir, exec, files).value;
    var args := LinkArgs(OptionsOf(p), objects, BuildDir(env.numakeDir, "out", p.name), OutputName(p));
    assert forall i :: 0 <= i < |files| ==> args[i] == args[..|objects|][i];
  }
}
