/** The newest revision's MSVC back-end (`src/lib/compilers/msvc.rs`). Every
    tool (CL, RC, CVTRES, LIB or LINK) runs with the environment captured
    by `MsvcEnv.Setup`, and a non-zero exit is an error carrying the tool's
    stdout. Object files are named relative to the base directory, not
    the project directory as in the GCC-style back-ends. */
module MsvcCompiler {
  import opened Wrappers
  import opened Errors
  import opened Paths
  import opened Process
  import opened SourceFiles
  import opened Assets
  import opened ProjectData
  import opened Toolchain
  import opened MsvcEnv
  import FailFast

  /** Running a tool with an environment: what the operating system
      reports for that invocation under those variables. */
  type EnvExec = (EnvMap, Invocation) -> Outcome

  /** `msvc_execute` on a tool started with the captured environment. */
  function RunTool(exec: EnvExec, env: EnvMap, inv: Invocation): Result<int, Error> {
    Run(ErrStdout, inv, exec(env, inv))
  }

  /** The CL command of one source: "-c", "-Fo<object>", "-I" for every
      include path, "-D" for every define, the compiler flags as given,
      and the source last. */
  function CompileArgs(o: Options, obj: Path, file: Path): (r: seq<string>)
    ensures r == Toolchain.CompileArgs(o, obj, file)[1 := "-Fo" + Render(obj)]
  {
    var tail := Prefixed("-I", o.includePaths) + Prefixed("-D", o.defines) + o.compilerFlags + [Render(file)];
    SwapSecond("-c", "-o" + Render(obj), "-Fo" + Render(obj), tail);
    ["-c", "-Fo" + Render(obj)] + tail
  }

  lemma SwapSecond(a: string, b: string, c: string, tail: seq<string>)
    ensures [a, c] + tail == ([a, b] + tail)[1 := c]
  {
    assert forall i :: 0 <= i < |tail| + 2 && i != 1 ==> ([a, c] + tail)[i] == ([a, b] + tail)[i];
  }

  /** One source through CL; Ok carries its ".obj" file, named after the
      source's path relative to `base` (the numake directory here, the
      working directory in the `src/lib/target` revision). */
  function CompileOne(o: Options, objDir: Path, base: Path, exec: EnvExec, env: EnvMap,
                      file: Path): (r: Result<string, Error>)
    ensures ObjectFile(objDir, base, file, ".obj").None? ==> r.Err? && r.error.Panic?
    ensures ObjectFile(objDir, base, file, ".obj").Some? ==>
              var obj := ObjectFile(objDir, base, file, ".obj").value;
              var run := RunTool(exec, env, Invocation("CL", CompileArgs(o, obj, file)));
              && (r.Ok? <==> run.Ok?)
              && (r.Ok? ==> r.value == Render(obj))
              && (r.Err? ==> r.error == run.error)
  {
    match ObjectFile(objDir, base, file, ".obj")
    case None => Err(Panic("diff_paths(...).unwrap() on a source with no path relative to the base directory"))
    case Some(obj) =>
      var _ :- RunTool(exec, env, Invocation("CL", CompileArgs(o, obj, file)));
      Ok(Render(obj))
  }

  function CompileEach(o: Options, objDir: Path, base: Path, exec: EnvExec, env: EnvMap): Path -> Result<string, Error> {
    file => CompileOne(o, objDir, base, exec, env, file)
  }

  /** `compilation_step`: the objects of all sources in order, or the first
      failure. */
  function CompileStep(o: Options, objDir: Path, base: Path, exec: EnvExec, env: EnvMap,
                       files: seq<Path>): (r: Result<seq<string>, Error>)
    ensures r.Ok? <==> forall i :: 0 <= i < |files| ==> CompileOne(o, objDir, base, exec, env, files[i]).Ok?
    ensures r.Ok? ==> |r.value| == |files| && forall i :: 0 <= i < |files| ==>
              r.value[i] == Render(ObjectFile(objDir, base, files[i], ".obj").value)
  {
    FailFast.Traverse(files, CompileEach(o, objDir, base, exec, env))
  }

  /** The RC command: "-v", "-fo<res>", "-i" for every include path, "-d"
      for every define, and the script last. */
  function ResourceArgs(o: Options, file: Path, res: Path): (r: seq<string>)
    ensures |r| == 3 + |o.includePaths| + |o.defines|
    ensures r[0] == "-v" && r[1] == "-fo" + Render(res) && r[|r| - 1] == Render(file)
    ensures forall i :: 0 <= i < |o.includePaths| ==> r[2 + i] == "-i" + o.includePaths[i]
    ensures forall i :: 0 <= i < |o.defines| ==> r[2 + |o.includePaths| + i] == "-d" + o.defines[i]
  {
    ["-v", "-fo" + Render(res)] + Prefixed("-i", o.includePaths) + Prefixed("-d", o.defines) + [Render(file)]
  }

  /** The CVTRES command: "/OUT:<rbj>", "/DEFINE:" for every define, and
      the compiled resource last. */
  function CvtresArgs(o: Options, rbj: Path, res: Path): (r: seq<string>)
    ensures |r| == 2 + |o.defines|
    ensures r[0] == "/OUT:" + Render(rbj) && r[|r| - 1] == Render(res)
    ensures forall i :: 0 <= i < |o.defines| ==> r[1 + i] == "/DEFINE:" + o.defines[i]
  {
    ["/OUT:" + Render(rbj)] + Prefixed("/DEFINE:", o.defines) + [Render(res)]
  }

  /** One resource script: RC compiles it into `<res_dir>/<source>.res`, then
      CVTRES turns that into `<obj_dir>/<source>.rbj`, which is what the link
      gets. CVTRES only runs after RC succeeded. */
  function ResourceOne(o: Options, resDir: Path, objDir: Path, base: Path, exec: EnvExec,
                       env: EnvMap, file: Path): (r: Result<string, Error>)
    ensures DiffPaths(file, base).None? ==> r.Err? && r.error.Panic?
    ensures DiffPaths(file, base).Some? ==>
              var res := ObjectFile(resDir, base, file, ".res").value;
              var rbj := ObjectFile(objDir, base, file, ".rbj").value;
              var rc := RunTool(exec, env, Invocation("RC", ResourceArgs(o, file, res)));
              var cvt := RunTool(exec, env, Invocation("CVTRES", CvtresArgs(o, rbj, res)));
              && (r.Ok? <==> rc.Ok? && cvt.Ok?)
              && (rc.Err? ==> r == Err(rc.error))
              && (rc.Ok? && cvt.Err? ==> r == Err(cvt.error))
              && (r.Ok? ==> r.value == Render(rbj))
  {
    match ObjectFile(resDir, base, file, ".res")
    case None => Err(Panic("diff_paths(...).unwrap() on a resource with no path relative to the base directory"))
    case Some(res) =>
      var _ :- RunTool(exec, env, Invocation("RC", ResourceArgs(o, file, res)));
      match ObjectFile(objDir, base, file, ".rbj")
      case None => Err(Panic("diff_paths(...).unwrap() on a resource with no path relative to the base directory"))
      case Some(rbj) =>
        var _ :- RunTool(exec, env, Invocation("CVTRES", CvtresArgs(o, rbj, res)));
        Ok(Render(rbj))
  }

  function ResourceEach(o: Options, resDir: Path, objDir: Path, base: Path, exec: EnvExec,
                        env: EnvMap): Path -> Result<string, Error> {
    file => ResourceOne(o, resDir, objDir, base, exec, env, file)
  }

  /** `resource_step`: the ".rbj" objects of all scripts in order, or the
      first failure. */
  function ResourceStep(o: Options, resDir: Path, objDir: Path, base: Path, exec: EnvExec,
                        env: EnvMap, files: seq<Path>): (r: Result<seq<string>, Error>)
    ensures r.Ok? <==> forall i :: 0 <= i < |files| ==> ResourceOne(o, resDir, objDir, base, exec, env, files[i]).Ok?
    ensures r.Ok? ==> |r.value| == |files| && forall i :: 0 <= i < |files| ==>
              r.value[i] == Render(ObjectFile(objDir, base, files[i], ".rbj").value)
  {
    FailFast.Traverse(files, ResourceEach(o, resDir, objDir, base, exec, env))
  }

  /** LIB archives a static library; LINK links everything else. */
  function LinkTool(staticLib: bool): (r: string)
    ensures r == "LIB" <==> staticLib
    ensures r == "LIB" || r == "LINK"
  {
    if staticLib then "LIB" else "LINK"
  }

  /** The link command: "/OUT:<out_dir>/<output>", "/LIBPATH:" for every
      library path, "/DEF:" for every module definition, the linker flags,
      the objects, and the libraries as given. */
  function LinkArgs(o: Options, objects: seq<string>, defs: seq<Path>, outDir: Path, output: string): (r: seq<string>)
    ensures |r| == 1 + |o.libPaths| + |defs| + |o.linkerFlags| + |objects| + |o.libs|
    ensures r[0] == "/OUT:" + Render(outDir) + "/" + output
    ensures forall i :: 0 <= i < |o.libPaths| ==> r[1 + i] == "/LIBPATH:" + o.libPaths[i]
    ensures forall i :: 0 <= i < |defs| ==> r[1 + |o.libPaths| + i] == "/DEF:" + Render(defs[i])
    ensures forall i :: 0 <= i < |o.linkerFlags| ==> r[1 + |o.libPaths| + |defs| + i] == o.linkerFlags[i]
    ensures r[1 + |o.libPaths| + |defs| + |o.linkerFlags|..|r| - |o.libs|] == objects
    ensures r[|r| - |o.libs|..] == o.libs
  {
    var defArgs := seq(|defs|, i requires 0 <= i < |defs| => "/DEF:" + Render(defs[i]));
    ["/OUT:" + Render(outDir) + "/" + output] + Prefixed("/LIBPATH:", o.libPaths) + defArgs
      + o.linkerFlags + objects + o.libs
  }

  /** The scratch files of the setup batch (a temporary directory's
      "exec.bat" and "env.txt"). */
  datatype Scratch = Scratch(batFile: Path, dumpFile: Path)

  /** The toolchain environment of `build`: the project's architecture, no
      platform type and no SDK version, the dump read as the source reads
      it (see `MsvcEnv.ParseLine`). */
  function SetupOf(p: Project, host: Host, scratch: Scratch): Result<EnvMap, Error> {
    Setup(host, ErrStdout, ParseEnv, p.arch, None, None, scratch.batFile, scratch.dumpFile)
  }

  /** The link of `build` over the given objects, output defaulting to
      "out" in `out/<name>`. */
  function LinkRun(p: Project, env: Env, exec: EnvExec, vars: EnvMap, objects: seq<string>,
                   defs: seq<Path>): Result<int, Error> {
    RunTool(exec, vars, Invocation(LinkTool(p.projectType == StaticLibrary),
                                   LinkArgs(OptionsOf(p), objects, defs, BuildDir(env.numakeDir, "out", p.name), OutputName(p))))
  }

  /** `build`. Off Windows it fails with `MsvcWindowsOnly` and does
      nothing. On Windows: capture the environment, compile, compile
      resources, link (the objects followed by the resource objects), and
      copy the assets relative to the project directory; the first failure
      ends the build with its error and nothing after it runs. */
  function Build(p: Project, env: Env, windows: bool, host: Host, exec: EnvExec, canon: Path -> Option<Path>,
                 scratch: Scratch, code: seq<Path>, resources: seq<Path>, defs: seq<Path>,
                 assets: seq<(string, string)>): (r: Result<seq<Copy>, Error>)
    requires IsEnumeration(code, Bucket(p.sourceFiles, Code))
    requires IsEnumeration(resources, Bucket(p.sourceFiles, Resource))
    requires IsEnumeration(defs, Bucket(p.sourceFiles, ModuleDefinition))
    requires IsEnumeration(assets, p.assetFiles.Items)
    ensures !windows ==> r == Err(MsvcWindowsOnly)
    ensures windows ==>
              var setup := SetupOf(p, host, scratch);
              var objDir := BuildDir(env.numakeDir, "obj", p.name);
              && (setup.Err? ==> r == Err(setup.error))
              && (setup.Ok? ==>
                    var compiled := CompileStep(OptionsOf(p), objDir, env.numakeDir, exec, setup.value, code);
                    && (compiled.Err? ==> r == Err(compiled.error))
                    && (compiled.Ok? ==>
                          var rbjs := ResourceStep(OptionsOf(p), BuildDir(env.numakeDir, "res", p.name), objDir,
                                                   env.numakeDir, exec, setup.value, resources);
                          && (rbjs.Err? ==> r == Err(rbjs.error))
                          && (rbjs.Ok? ==>
                                var link := LinkRun(p, env, exec, setup.value, compiled.value + rbjs.value, defs);
                                && (link.Err? ==> r == Err(link.error))
                                && (link.Ok? ==> r == CopyAssets(p, env.projectDir, BuildDir(env.numakeDir, "out", p.name), canon, assets)))))
  {
    if !windows then Err(MsvcWindowsOnly)
    else
      var objDir := BuildDir(env.numakeDir, "obj", p.name);
      var outDir := BuildDir(env.numakeDir, "out", p.name);
      var resDir := BuildDir(env.numakeDir, "res", p.name);
      var vars :- SetupOf(p, host, scratch);
      var objects :- CompileStep(OptionsOf(p), objDir, env.numakeDir, exec, vars, code);
      var rbjs :- ResourceStep(OptionsOf(p), resDir, objDir, env.numakeDir, exec, vars, resources);
      var _ :- LinkRun(p, env, exec, vars, objects + rbjs, defs);
      CopyAssets(p, env.projectDir, outDir, canon, assets)
  }

  /** A build succeeds exactly when it runs on Windows with a toolchain
      found, the compile and resource steps succeed, the link of all their
      objects (sources first, then resources, in order) succeeds and every
      asset is copied; and the compile (resource) step succeeds exactly
      when every source (resource script) of the project compiles under
      that environment, whatever order the set is listed in. */
  lemma BuildSucceeds(p: Project, env: Env, windows: bool, host: Host, exec: EnvExec, canon: Path -> Option<Path>,
                      scratch: Scratch, code: seq<Path>, resources: seq<Path>, defs: seq<Path>,
                      assets: seq<(string, string)>)
    requires IsEnumeration(code, Bucket(p.sourceFiles, Code))
    requires IsEnumeration(resources, Bucket(p.sourceFiles, Resource))
    requires IsEnumeration(defs, Bucket(p.sourceFiles, ModuleDefinition))
    requires IsEnumeration(assets, p.assetFiles.Items)
    ensures var setup := SetupOf(p, host, scratch);
            var objDir := BuildDir(env.numakeDir, "obj", p.name);
            var resDir := BuildDir(env.numakeDir, "res", p.name);
            Build(p, env, windows, host, exec, canon, scratch, code, resources, defs, assets).Ok? <==>
              && windows
              && setup.Ok?
              && var compiled := CompileStep(OptionsOf(p), objDir, env.numakeDir, exec, setup.value, code);
                 var rbjs := ResourceStep(OptionsOf(p), resDir, objDir, env.numakeDir, exec, setup.value, resources);
                 && compiled.Ok?
                 && rbjs.Ok?
                 && LinkRun(p, env, exec, setup.value, compiled.value + rbjs.value, defs).Ok?
                 && CopyAssets(p, env.projectDir, BuildDir(env.numakeDir, "out", p.name), canon, assets).Ok?
    ensures var setup := SetupOf(p, host, scratch);
            var objDir := BuildDir(env.numakeDir, "obj", p.name);
            setup.Ok? ==>
              (CompileStep(OptionsOf(p), objDir, env.numakeDir, exec, setup.value, code).Ok? <==>
                 forall f :: f in Bucket(p.sourceFiles, Code) ==>
                   CompileOne(OptionsOf(p), objDir, env.numakeDir, exec, setup.value, f).Ok?)
    ensures var setup := SetupOf(p, host, scratch);
            var objDir := BuildDir(env.numakeDir, "obj", p.name);
            var resDir := BuildDir(env.numakeDir, "res", p.name);
            setup.Ok? ==>
              (ResourceStep(OptionsOf(p), resDir, objDir, env.numakeDir, exec, setup.value, resources).Ok? <==>
                 forall f :: f in Bucket(p.sourceFiles, Resource) ==>
                   ResourceOne(OptionsOf(p), resDir, objDir, env.numakeDir, exec, setup.value, f).Ok?)
  {
    var setup := SetupOf(p, host, scratch);
    if setup.Ok? {
      var objDir := BuildDir(env.numakeDir, "obj", p.name);
      var resDir := BuildDir(env.numakeDir, "res", p.name);
      EveryListedOk(code, Bucket(p.sourceFiles, Code), CompileEach(OptionsOf(p), objDir, env.numakeDir, exec, setup.value));
      EveryListedOk(resources, Bucket(p.sourceFiles, Resource), ResourceEach(OptionsOf(p), resDir, objDir, env.numakeDir, exec, setup.value));
    }
  }

  /** Over an enumeration of a key set, every listed element succeeding
      is every key succeeding. */
  lemma EveryListedOk<R>(xs: seq<Path>, keys: set<Path>, f: Path -> Result<R, Error>)
    requires IsEnumeration(xs, keys)
    ensures (forall i :: 0 <= i < |xs| ==> f(xs[i]).Ok?) <==> (forall k :: k in keys ==> f(k).Ok?)
  {
    if forall i :: 0 <= i < |xs| ==> f(xs[i]).Ok? {
      forall k | k in keys
        ensures f(k).Ok?
      {
        var i :| 0 <= i < |xs| && xs[i] == k;
      }
    }
  }
}
