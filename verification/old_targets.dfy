/** The targets of the top-level `LuaWorkspace` (`src/lua_workspace.rs`):
    a generic GCC-style target and an MSVC target. This revision reads
    exit statuses itself. A compile, RC or CVTRES step that exits non-zero
    aborts the build with that status. The link's status is only logged,
    so the assets are copied even after a failed link. The fields of the
    two targets are those of the later revisions (`Targets.GenericTarget`
    and `LibTarget.MsvcTarget`). The `Target` enum this workspace stores
    comes from a `target.rs` that is not part of this model; it is taken
    to wrap the two targets and to dispatch to them. */
module OldTargets {
  import opened Wrappers
  import opened Errors
  import opened Paths
  import opened Process
  import opened Assets
  import opened Sandbox
  import opened Toolchain
  import opened MsvcEnv
  import MsvcCompiler
  import GenericCompiler
  import LibTarget
  import Targets
  import FailFast
  import Workspaces

  datatype Target =
    | Generic(generic: Targets.GenericTarget)
    | Msvc(msvc: LibTarget.MsvcTarget)

  function GetName(t: Target): (r: string)
    ensures t.Generic? ==> r == t.generic.name
    ensures t.Msvc? ==> r == t.msvc.fields.name
  {
    match t
    case Generic(g) => g.name
    case Msvc(m) => m.fields.name
  }

  /** `util::execute` and the MSVC target's `execute`: the exit status is
      returned whatever it is; only a program that cannot be started is an
      error. */
  function Execute(inv: Invocation, o: Outcome): (r: Result<int, Error>)
    ensures r.Ok? <==> o.Spawned?
    ensures r.Ok? ==> r.value == o.code
    ensures o.NotSpawned? ==> r == Err(SpawnFailed(inv.program))
  {
    Run(StatusOnly, inv, o)
  }

  /** What a build sees: the workspace's `.numake` directory and its
      compiler, linker and output overrides, and the machine. */
  datatype Site = Site(
    numakeDir: Path,
    compiler: Option<string>,
    linker: Option<string>,
    output: Option<string>,
    windows: bool,
    exec: Exec,
    envExec: MsvcCompiler.EnvExec,
    host: Host,
    scratch: MsvcCompiler.Scratch)

  function GenericSite(site: Site): Targets.Site {
    Targets.Site(site.numakeDir, site.compiler, site.linker, site.output, site.exec)
  }

  // ----- The generic target -----

  /** This revision's generic link arguments: the objects, "-L" for every
      library path, "-l" for every library, the output, and only then the
      linker flags. */
  function LinkArgs(o: Options, objects: seq<string>, outDir: Path, output: string): (r: seq<string>)
    ensures |r| == |objects| + |o.libPaths| + |o.libs| + 1 + |o.linkerFlags|
    ensures r[..|objects|] == objects
    ensures forall i :: 0 <= i < |o.libPaths| ==> r[|objects| + i] == "-L" + o.libPaths[i]
    ensures forall i :: 0 <= i < |o.libs| ==> r[|objects| + |o.libPaths| + i] == "-l" + o.libs[i]
    ensures r[|objects| + |o.libPaths| + |o.libs|] == OutputArg(outDir, output)
    ensures r[|r| - |o.linkerFlags|..] == o.linkerFlags
  {
    objects + Prefixed("-L", o.libPaths) + Prefixed("-l", o.libs) + [OutputArg(outDir, output)] + o.linkerFlags
  }

  /** Against the later generic target (`GenericCompiler.LinkArgs`) only
      the output argument moves: it comes before the linker flags here and
      after them there. The two lists hold the same arguments. */
  lemma {:induction false} LinkArgsMoveOutput(o: Options, objects: seq<string>, outDir: Path, output: string)
    ensures var head := objects + Prefixed("-L", o.libPaths) + Prefixed("-l", o.libs);
            && LinkArgs(o, objects, outDir, output) == head + [OutputArg(outDir, output)] + o.linkerFlags
            && GenericCompiler.LinkArgs(o, objects, outDir, output) == head + o.linkerFlags + [OutputArg(outDir, output)]
    ensures multiset(LinkArgs(o, objects, outDir, output)) == multiset(GenericCompiler.LinkArgs(o, objects, outDir, output))
  {
    var head := objects + Prefixed("-L", o.libPaths) + Prefixed("-l", o.libs);
    var out := [OutputArg(outDir, output)];
    assert GenericCompiler.LinkArgs(o, objects, outDir, output) == head + o.linkerFlags + out;
    calc {
      multiset(head + out + o.linkerFlags);
      multiset(head) + multiset(out) + multiset(o.linkerFlags);
      multiset(head) + multiset(o.linkerFlags) + multiset(out);
      multiset(head + o.linkerFlags + out);
    }
  }

  /** One source: the object is the source's path relative to the working
      directory with ".o" appended, under the object directory; a
      non-zero exit aborts the build with the status. */
  function GenericCompileOne(t: Targets.GenericTarget, compiler: string, objDir: Path, exec: Exec, file: Path)
    : (r: Result<string, Error>)
    ensures ObjectFile(objDir, t.workdir, file, ".o").None? ==> r.Err? && r.error.Panic?
    ensures ObjectFile(objDir, t.workdir, file, ".o").Some? ==>
              var obj := ObjectFile(objDir, t.workdir, file, ".o").value;
              var inv := Invocation(compiler, CompileArgs(t.opts, obj, file));
              && (r.Ok? <==> Succeeded(exec(inv)))
              && (r.Ok? ==> r.value == Render(obj))
              && (exec(inv).Spawned? && exec(inv).code != 0 ==> r == Err(ExitStatus(exec(inv).code)))
  {
    match ObjectFile(objDir, t.workdir, file, ".o")
    case None => Err(Panic("diff_paths(...).unwrap() on a source with no relative path"))
    case Some(obj) =>
      var inv := Invocation(compiler, CompileArgs(t.opts, obj, file));
      var _ :- Run(ErrStatus, inv, exec(inv));
      Ok(Render(obj))
  }

  function GenericCompileEach(t: Targets.GenericTarget, compiler: string, objDir: Path, exec: Exec)
    : Path -> Result<string, Error> {
    file => GenericCompileOne(t, compiler, objDir, exec, file)
  }

  /** The generic `build`: the tools (a workspace setting wins, and a
      missing compiler is reported with the linker message, as in
      `Targets.GenericToolsAsWritten`), compile in order, link, copy the
      assets. */
  function BuildGeneric(site: Site, t: Targets.GenericTarget): (r: Result<set<Copy>, Error>)
    ensures Targets.GenericToolsAsWritten(GenericSite(site), t).Err? ==> r == Err(Targets.GenericToolsAsWritten(GenericSite(site), t).error)
    ensures Targets.GenericToolsAsWritten(GenericSite(site), t).Ok? ==>
              var tools := Targets.GenericToolsAsWritten(GenericSite(site), t).value;
              var compiled := FailFast.Traverse(t.files, GenericCompileEach(t, tools.0, BuildDir(site.numakeDir, "obj", t.name), site.exec));
              && (compiled.Err? ==> r == Err(compiled.error))
              && (compiled.Ok? ==>
                    var link := GenericLinkRun(site, tools.1, t, compiled.value);
                    && (link.Err? ==> r == Err(link.error))
                    && (link.Ok? ==> r == CopyAll(t.assets, BuildDir(site.numakeDir, "out", t.name))))
  {
    var tools :- Targets.GenericToolsAsWritten(GenericSite(site), t);
    var objDir := BuildDir(site.numakeDir, "obj", t.name);
    var outDir := BuildDir(site.numakeDir, "out", t.name);
    var objects :- FailFast.Traverse(t.files, GenericCompileEach(t, tools.0, objDir, site.exec));
    var _ :- GenericLinkRun(site, tools.1, t, objects);
    CopyAll(t.assets, outDir)
  }

  /** The generic link of this revision: the output before the linker
      flags; only a linker that cannot start fails. */
  function GenericLinkRun(site: Site, linker: string, t: Targets.GenericTarget, objects: seq<string>): Result<int, Error> {
    var link := Invocation(linker, LinkArgs(t.opts, objects, BuildDir(site.numakeDir, "out", t.name),
                                            LibTarget.OutputOf(site.output, t.output)));
    Execute(link, site.exec(link))
  }

  /** The link's exit status does not matter: once the tools are there,
      every source compiles and the linker starts, the build is exactly
      the asset copy, even when the linker exits non-zero. */
  lemma {:induction false} LinkStatusIgnored(site: Site, t: Targets.GenericTarget)
    requires Targets.GenericToolsAsWritten(GenericSite(site), t).Ok?
    requires var tools := Targets.GenericToolsAsWritten(GenericSite(site), t).value;
             var objDir := BuildDir(site.numakeDir, "obj", t.name);
             forall i :: 0 <= i < |t.files| ==> GenericCompileOne(t, tools.0, objDir, site.exec, t.files[i]).Ok?
    requires var tools := Targets.GenericToolsAsWritten(GenericSite(site), t).value;
             var objDir := BuildDir(site.numakeDir, "obj", t.name);
             var objects := FailFast.Traverse(t.files, GenericCompileEach(t, tools.0, objDir, site.exec)).value;
             var link := Invocation(tools.1, LinkArgs(t.opts, objects, BuildDir(site.numakeDir, "out", t.name),
                                                      LibTarget.OutputOf(site.output, t.output)));
             site.exec(link).Spawned?
    ensures BuildGeneric(site, t) == CopyAll(t.assets, BuildDir(site.numakeDir, "out", t.name))
  {
    var tools := Targets.GenericToolsAsWritten(GenericSite(site), t).value;
    var objDir := BuildDir(site.numakeDir, "obj", t.name);
    var each := GenericCompileEach(t, tools.0, objDir, site.exec);
    assert forall i :: 0 <= i < |t.files| ==> each(t.files[i]).Ok?;
    assert FailFast.Traverse(t.files, each).Ok?;
  }

  /** A failing compile ends the build with that compile's status: no
      later source is compiled, nothing is linked and no asset is copied. */
  lemma {:induction false} CompileFailureAborts(site: Site, t: Targets.GenericTarget, k: nat)
    requires Targets.GenericToolsAsWritten(GenericSite(site), t).Ok?
    requires k < |t.files|
    requires var tools := Targets.GenericToolsAsWritten(GenericSite(site), t).value;
             var objDir := BuildDir(site.numakeDir, "obj", t.name);
             && (forall i :: 0 <= i < k ==> GenericCompileOne(t, tools.0, objDir, site.exec, t.files[i]).Ok?)
             && GenericCompileOne(t, tools.0, objDir, site.exec, t.files[k]).Err?
    ensures var tools := Targets.GenericToolsAsWritten(GenericSite(site), t).value;
            var objDir := BuildDir(site.numakeDir, "obj", t.name);
            BuildGeneric(site, t) == Err(GenericCompileOne(t, tools.0, objDir, site.exec, t.files[k]).error)
  {
    var tools := Targets.GenericToolsAsWritten(GenericSite(site), t).value;
    var objDir := BuildDir(site.numakeDir, "obj", t.name);
    var each := GenericCompileEach(t, tools.0, objDir, site.exec);
    assert each(t.files[k]).Err?;
    assert FailFast.FirstFailure(t.files, each) == k;
  }

  // ----- The MSVC target -----

  /** One source through `cl`, named after its path relative to the working
      directory with ".obj" appended; a non-zero exit aborts the build. */
  function MsvcCompileOne(f: LibTarget.Fields, objDir: Path, exec: MsvcCompiler.EnvExec, env: EnvMap, file: Path)
    : (r: Result<string, Error>)
    ensures ObjectFile(objDir, f.workdir, file, ".obj").None? ==> r.Err? && r.error.Panic?
    ensures ObjectFile(objDir, f.workdir, file, ".obj").Some? ==>
              var obj := ObjectFile(objDir, f.workdir, file, ".obj").value;
              var inv := Invocation("cl", MsvcCompiler.CompileArgs(f.opts, obj, file));
              && (r.Ok? <==> Succeeded(exec(env, inv)))
              && (r.Ok? ==> r.value == Render(obj))
  {
    match ObjectFile(objDir, f.workdir, file, ".obj")
    case None => Err(Panic("diff_paths(...).unwrap() on a source with no relative path"))
    case Some(obj) =>
      var inv := Invocation("cl", MsvcCompiler.CompileArgs(f.opts, obj, file));
      var _ :- Run(ErrStatus, inv, exec(env, inv));
      Ok(Render(obj))
  }

  /** One resource script: `rc` into `<res_dir>/<script>.res`, then `cvtres`
      into `<obj_dir>/<script>.rbj`; either exiting non-zero aborts. */
  function MsvcResourceOne(f: LibTarget.Fields, resDir: Path, objDir: Path, exec: MsvcCompiler.EnvExec, env: EnvMap,
                           file: Path): (r: Result<string, Error>)
    ensures DiffPaths(file, f.workdir).None? ==> r.Err? && r.error.Panic?
    ensures DiffPaths(file, f.workdir).Some? ==>
              var res := ObjectFile(resDir, f.workdir, file, ".res").value;
              var rbj := ObjectFile(objDir, f.workdir, file, ".rbj").value;
              var rc := Invocation("rc", MsvcCompiler.ResourceArgs(f.opts, file, res));
              var cvt := Invocation("cvtres", MsvcCompiler.CvtresArgs(f.opts, rbj, res));
              && (r.Ok? <==> Succeeded(exec(env, rc)) && Succeeded(exec(env, cvt)))
              && (r.Ok? ==> r.value == Render(rbj))
  {
    match ObjectFile(resDir, f.workdir, file, ".res")
    case None => Err(Panic("diff_paths(...).unwrap() on a resource with no relative path"))
    case Some(res) =>
      var rc := Invocation("rc", MsvcCompiler.ResourceArgs(f.opts, file, res));
      var _ :- Run(ErrStatus, rc, exec(env, rc));
      match ObjectFile(objDir, f.workdir, file, ".rbj")
      case None => Err(Panic("diff_paths(...).unwrap() on a resource with no relative path"))
      case Some(rbj) =>
        var cvt := Invocation("cvtres", MsvcCompiler.CvtresArgs(f.opts, rbj, res));
        var _ :- Run(ErrStatus, cvt, exec(env, cvt));
        Ok(Render(rbj))
  }

  function MsvcCompileEach(f: LibTarget.Fields, objDir: Path, exec: MsvcCompiler.EnvExec, env: EnvMap)
    : Path -> Result<string, Error> {
    file => MsvcCompileOne(f, objDir, exec, env, file)
  }

  function MsvcResourceEach(f: LibTarget.Fields, resDir: Path, objDir: Path, exec: MsvcCompiler.EnvExec, env: EnvMap)
    : Path -> Result<string, Error> {
    file => MsvcResourceOne(f, resDir, objDir, exec, env, file)
  }

  /** `lib` archives a static library, `link` links everything else, with
      the arguments of the later revisions. */
  function MsvcLink(f: LibTarget.Fields, objects: seq<string>, outDir: Path, output: string): (r: Invocation)
    ensures r.program == (if f.staticLib then "lib" else "link")
    ensures r.args == MsvcCompiler.LinkArgs(f.opts, objects, f.defFiles, outDir, output)
  {
    Invocation(if f.staticLib then "lib" else "link", MsvcCompiler.LinkArgs(f.opts, objects, f.defFiles, outDir, output))
  }

  /** The MSVC `build`. Off Windows it fails with `MsvcWindowsOnly`. On
      Windows: capture the environment (the setup batch's own status is not
      checked; the dump is read as the source reads it, keeping only the
      second '='-separated piece of each line, see `MsvcEnv.ParseLine`),
      compile, compile resources, link the objects and then the resource
      objects, and copy the assets. */
  function BuildMsvc(site: Site, t: LibTarget.MsvcTarget): (r: Result<set<Copy>, Error>)
    ensures !site.windows ==> r == Err(MsvcWindowsOnly)
    ensures site.windows ==>
              var f := t.fields;
              var setup := MsvcSetup(site, t);
              var objDir := BuildDir(site.numakeDir, "obj", f.name);
              && (setup.Err? ==> r == Err(setup.error))
              && (setup.Ok? ==>
                    var compiled := FailFast.Traverse(f.files, MsvcCompileEach(f, objDir, site.envExec, setup.value));
                    && (compiled.Err? ==> r == Err(compiled.error))
                    && (compiled.Ok? ==>
                          var rbjs := FailFast.Traverse(f.resources, MsvcResourceEach(f, BuildDir(site.numakeDir, "res", f.name),
                                                                                      objDir, site.envExec, setup.value));
                          && (rbjs.Err? ==> r == Err(rbjs.error))
                          && (rbjs.Ok? ==>
                                var link := MsvcLinkRun(site, t, setup.value, compiled.value + rbjs.value);
                                && (link.Err? ==> r == Err(link.error))
                                && (link.Ok? ==> r == CopyAll(f.assets, BuildDir(site.numakeDir, "out", f.name))))))
  {
    if !site.windows then Err(MsvcWindowsOnly)
    else
      var f := t.fields;
      var objDir := BuildDir(site.numakeDir, "obj", f.name);
      var outDir := BuildDir(site.numakeDir, "out", f.name);
      var resDir := BuildDir(site.numakeDir, "res", f.name);
      var env :- MsvcSetup(site, t);
      var objects :- FailFast.Traverse(f.files, MsvcCompileEach(f, objDir, site.envExec, env));
      var rbjs :- FailFast.Traverse(f.resources, MsvcResourceEach(f, resDir, objDir, site.envExec, env));
      var _ :- MsvcLinkRun(site, t, env, objects + rbjs);
      CopyAll(f.assets, outDir)
  }

  /** The environment capture of this revision: the batch's own status is
      not checked, and the dump is read as written. */
  function MsvcSetup(site: Site, t: LibTarget.MsvcTarget): Result<EnvMap, Error> {
    Setup(site.host, StatusOnly, ParseEnv, t.fields.arch, None, None, site.scratch.batFile, site.scratch.dumpFile)
  }

  /** The MSVC link under the captured environment; only a linker that
      cannot start fails. */
  function MsvcLinkRun(site: Site, t: LibTarget.MsvcTarget, env: EnvMap, objects: seq<string>): Result<int, Error> {
    var link := MsvcLink(t.fields, objects, BuildDir(site.numakeDir, "out", t.fields.name),
                         LibTarget.OutputOf(site.output, t.fields.output));
    Execute(link, site.envExec(env, link))
  }

  /** A failing CL, RC or CVTRES aborts the MSVC build: once the toolchain
      is found, the build fails exactly when a source or a resource script
      fails to compile, or the linker cannot start, or an asset destination
      leaves the output directory. */
  lemma {:induction false} MsvcBuildSucceeds(site: Site, t: LibTarget.MsvcTarget)
    ensures var f := t.fields;
            var setup := MsvcSetup(site, t);
            var objDir := BuildDir(site.numakeDir, "obj", f.name);
            var resDir := BuildDir(site.numakeDir, "res", f.name);
            BuildMsvc(site, t).Ok? <==>
              && site.windows
              && setup.Ok?
              && (forall i :: 0 <= i < |f.files| ==> MsvcCompileOne(f, objDir, site.envExec, setup.value, f.files[i]).Ok?)
              && (forall i :: 0 <= i < |f.resources| ==>
                    MsvcResourceOne(f, resDir, objDir, site.envExec, setup.value, f.resources[i]).Ok?)
              && var objects := FailFast.Traverse(f.files, MsvcCompileEach(f, objDir, site.envExec, setup.value)).value;
                 var rbjs := FailFast.Traverse(f.resources, MsvcResourceEach(f, resDir, objDir, site.envExec, setup.value)).value;
                 && MsvcLinkRun(site, t, setup.value, objects + rbjs).Ok?
                 && forall k :: k in f.assets ==> Inside(BuildDir(site.numakeDir, "out", f.name), Parse(f.assets[k]))
  {
    var f := t.fields;
    var setup := MsvcSetup(site, t);
    if site.windows && setup.Ok? {
      var objDir := BuildDir(site.numakeDir, "obj", f.name);
      var resDir := BuildDir(site.numakeDir, "res", f.name);
      var each := MsvcCompileEach(f, objDir, site.envExec, setup.value);
      var eachRes := MsvcResourceEach(f, resDir, objDir, site.envExec, setup.value);
      assert forall i :: 0 <= i < |f.files| ==> each(f.files[i]) == MsvcCompileOne(f, objDir, site.envExec, setup.value, f.files[i]);
      assert forall i :: 0 <= i < |f.resources| ==>
               eachRes(f.resources[i]) == MsvcResourceOne(f, resDir, objDir, site.envExec, setup.value, f.resources[i]);
      var compiled := FailFast.Traverse(f.files, each);
      var rbjs := FailFast.Traverse(f.resources, eachRes);
      if compiled.Ok? && rbjs.Ok? && MsvcLinkRun(site, t, setup.value, compiled.value + rbjs.value).Ok? {
        assert BuildMsvc(site, t) == CopyAll(f.assets, BuildDir(site.numakeDir, "out", f.name));
      }
    }
  }

  /** As for the generic target, a started link counts whatever its exit
      status: after a successful setup, compile and resource step the
      build is exactly the asset copy. */
  lemma {:induction false} MsvcLinkStatusIgnored(site: Site, t: LibTarget.MsvcTarget)
    requires site.windows
    requires Setup(site.host, StatusOnly, ParseEnv, t.fields.arch, None, None,
                   site.scratch.batFile, site.scratch.dumpFile).Ok?
    requires var env := Setup(site.host, StatusOnly, ParseEnv, t.fields.arch, None, None,
                              site.scratch.batFile, site.scratch.dumpFile).value;
             var f := t.fields;
             && FailFast.Traverse(f.files, MsvcCompileEach(f, BuildDir(site.numakeDir, "obj", f.name), site.envExec, env)).Ok?
             && FailFast.Traverse(f.resources, MsvcResourceEach(f, BuildDir(site.numakeDir, "res", f.name),
                                                                BuildDir(site.numakeDir, "obj", f.name), site.envExec, env)).Ok?
    requires forall env, inv :: site.envExec(env, inv).Spawned?
    ensures BuildMsvc(site, t) == CopyAll(t.fields.assets, BuildDir(site.numakeDir, "out", t.fields.name))
  {
  }

  // ----- Dispatch and the workspace -----

  function BuildTarget(site: Site, t: Target): (r: Result<(), Error>)
    ensures t.Generic? ==> (r.Ok? <==> BuildGeneric(site, t.generic).Ok?)
    ensures t.Msvc? ==> (r.Ok? <==> BuildMsvc(site, t.msvc).Ok?)
    ensures t.Generic? && r.Err? ==> r.error == BuildGeneric(site, t.generic).error
    ensures t.Msvc? && r.Err? ==> r.error == BuildMsvc(site, t.msvc).error
  {
    match t
    case Generic(g) => var _ :- BuildGeneric(site, g); Ok(())
    case Msvc(m) => var _ :- BuildMsvc(site, m); Ok(())
  }

  /** The names that build every registered target. */
  const Everything: set<string> := {"all", "*"}

  /** The machine a build runs on. */
  datatype Machine = Machine(
    windows: bool,
    exec: Exec,
    envExec: MsvcCompiler.EnvExec,
    host: Host,
    scratch: MsvcCompiler.Scratch)

  function SiteOf(w: Workspaces.Workspace<Target>, m: Machine): Site {
    Site(w.numakeDir, w.compiler, w.linker, w.output, m.windows, m.exec, m.envExec, m.host, m.scratch)
  }

  /** `register_target`: keyed by the target's own name. */
  function RegisterTarget(w: Workspaces.Workspace<Target>, t: Target): (r: Workspaces.Workspace<Target>)
    ensures GetName(t) in r.targets && r.targets[GetName(t)] == t
    ensures r.targets.Keys == w.targets.Keys + {GetName(t)}
    ensures forall n :: n in w.targets && n != GetName(t) ==> r.targets[n] == w.targets[n]
  {
    Workspaces.Register(w, t, GetName)
  }

  function Builder(w: Workspaces.Workspace<Target>, m: Machine): Target -> Result<(), Error> {
    t => BuildTarget(SiteOf(w, m), t)
  }

  /** `build`, with the registered names in the map's iteration order. */
  function Build(w: Workspaces.Workspace<Target>, m: Machine, order: seq<string>): Result<(), Error>
    requires IsEnumeration(order, w.targets.Keys)
  {
    Workspaces.Build(w, Everything, order, Builder(w, m))
  }

  /** "all" and "*" build every registered target and succeed exactly when
      each builds; any other name builds that target alone, and an
      unregistered one is `TargetNotFound`. */
  lemma {:induction false} BuildSpec(w: Workspaces.Workspace<Target>, m: Machine, order: seq<string>)
    requires IsEnumeration(order, w.targets.Keys)
    ensures w.target == "all" || w.target == "*" ==>
              (Build(w, m, order).Ok? <==> forall n :: n in w.targets ==> BuildTarget(SiteOf(w, m), w.targets[n]).Ok?)
    ensures (w.target == "all" || w.target == "*") && Build(w, m, order).Err? ==>
              exists n :: n in w.targets && BuildTarget(SiteOf(w, m), w.targets[n]) == Build(w, m, order)
    ensures w.target != "all" && w.target != "*" && w.target !in w.targets ==>
              Build(w, m, order) == Err(TargetNotFound)
    ensures w.target != "all" && w.target != "*" && w.target in w.targets ==>
              Build(w, m, order) == BuildTarget(SiteOf(w, m), w.targets[w.target])
  {
    var b := Builder(w, m);
    Workspaces.BuildSpec(w, Everything, order, b);
    assert forall n :: n in w.targets ==> b(w.targets[n]) == BuildTarget(SiteOf(w, m), w.targets[n]);
  }
}
