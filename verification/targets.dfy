/** The `src/targets` revision's targets: a generic GCC-style target whose
    compiler and linker are named by the build script, a MinGW target, and
    a custom target that builds a list of other targets. The workspace
    supplies the `.numake` directory and its own compiler, linker and
    output overrides. The MSVC target of this revision
    (`src/targets/msvc_target.rs`) is not part of this model; its build
    outcome and its `execute` policy are parameters. The file-list and
    asset setters are those of `Sandbox`. */
module Targets {
  import opened Wrappers
  import opened Errors
  import opened Paths
  import opened Process
  import opened Assets
  import opened Sandbox
  import opened Toolchain
  import LibTarget
  import MinGWCompiler
  import GenericCompiler
  import FailFast
  import CustomTargets

  datatype GenericTarget = GenericTarget(
    name: string,
    workdir: Path,
    opts: Options,
    output: Option<string>,
    files: seq<Path>,
    assets: map<Path, string>,
    compiler: Option<string>,
    linker: Option<string>)

  datatype MinGWTarget = MinGWTarget(
    name: string,
    workdir: Path,
    opts: Options,
    output: Option<string>,
    files: seq<Path>,
    resources: seq<Path>,
    defFiles: seq<Path>,
    assets: map<Path, string>,
    windresFlags: seq<string>,
    arch: Option<string>,
    staticLib: bool,
    lang: string)

  datatype Target =
    | Generic(generic: GenericTarget)
    | Msvc(msvcName: string, outcome: Result<(), Error>, mode: Mode)
    | MinGW(mingw: MinGWTarget)

  /** A custom target holds plain targets (this revision's `Target` has no
      custom variant, so custom targets do not nest). */
  type CustomTarget = CustomTargets.CustomTarget<Target>

  const NoOptions: Options := Options([], [], [], [], [], [])

  /** `GenericTarget::new`: the given tools and output, nothing listed. */
  function NewGeneric(name: string, compiler: Option<string>, linker: Option<string>, output: Option<string>,
                      workdir: Path): (t: GenericTarget)
    ensures t.name == name && t.compiler == compiler && t.linker == linker && t.output == output
    ensures t.workdir == workdir && t.opts == NoOptions && t.files == [] && t.assets == map[]
  {
    GenericTarget(name, workdir, NoOptions, output, [], map[], compiler, linker)
  }

  /** `MINGWTarget::new`: nothing listed, no architecture, not a static
      library, language "C++". */
  function NewMinGW(name: string, output: Option<string>, workdir: Path): (t: MinGWTarget)
    ensures t.name == name && t.output == output && t.workdir == workdir && t.opts == NoOptions
    ensures t.files == [] && t.resources == [] && t.defFiles == [] && t.assets == map[]
    ensures t.arch == None && !t.staticLib && t.lang == "C++"
  {
    MinGWTarget(name, workdir, NoOptions, output, [], [], [], map[], [], None, false, "C++")
  }

  /** `get_name`: the wrapped target's own name. */
  function GetName(t: Target): (r: string)
    ensures t.Generic? ==> r == t.generic.name
    ensures t.Msvc? ==> r == t.msvcName
    ensures t.MinGW? ==> r == t.mingw.name
  {
    match t
    case Generic(g) => g.name
    case Msvc(n, _, _) => n
    case MinGW(m) => m.name
  }

  // ----- The sandboxed setters -----

  /** The list a MinGW `add_file`, `add_rc_file` or `add_def_file` appends to. */
  function MinGWFiles(t: MinGWTarget, l: LibTarget.FileList): seq<Path> {
    match l
    case Files => t.files
    case Resources => t.resources
    case DefFiles => t.defFiles
  }

  /** The three MinGW `add_*` methods: the same two checks, then the file is
      appended to its own list and every other field is unchanged. */
  function AddMinGWFile(t: MinGWTarget, l: LibTarget.FileList, file: Path, isFile: Path -> bool): (r: Result<MinGWTarget, Error>)
    ensures !StartsWith(file, t.workdir) ==> r == Err(PathOutsideWorkingDirectory)
    ensures StartsWith(file, t.workdir) && !isFile(file) ==> r == Err(AddFileIsDirectory)
    ensures r.Ok? <==> StartsWith(file, t.workdir) && isFile(file)
    ensures r.Ok? ==> MinGWFiles(r.value, l) == MinGWFiles(t, l) + [file]
    ensures r.Ok? ==> forall m :: m != l ==> MinGWFiles(r.value, m) == MinGWFiles(t, m)
    ensures r.Ok? ==> r.value.(files := t.files, resources := t.resources, defFiles := t.defFiles) == t
  {
    var files :- AddChecked(MinGWFiles(t, l), t.workdir, file, isFile);
    match l
    case Files => Ok(t.(files := files))
    case Resources => Ok(t.(resources := files))
    case DefFiles => Ok(t.(defFiles := files))
  }

  /** The `files` setter: every name is canonicalised against the working
      directory and added with `add_file`, in order; the first refusal ends
      the assignment, keeping the files added before it. */
  function SetGenericFiles(t: GenericTarget, names: seq<string>, canon: Path -> Option<Path>, isFile: Path -> bool)
    : (r: Partial<GenericTarget>)
    ensures t.files <= r.state.files
    ensures r.state.(files := t.files) == t
    ensures r.error.None? <==> forall i :: 0 <= i < |names| ==> Admit(t.workdir, canon, isFile, names[i]).Ok?
    ensures forall i :: |t.files| <= i < |r.state.files| ==> StartsWith(r.state.files[i], t.workdir) && isFile(r.state.files[i])
  {
    var added := AddAll(t.files, t.workdir, names, canon, isFile);
    ExtendStopsAtFirstRefusal(t.files, names, Admitter(t.workdir, canon, isFile));
    AddAllAdmits(t.files, t.workdir, names, canon, isFile);
    Partial(t.(files := added.state), added.error)
  }

  /** Every path the setter appends passed both `add_file` checks. */
  lemma {:induction false} AddAllAdmits(files: seq<Path>, wd: Path, names: seq<string>, canon: Path -> Option<Path>,
                                        isFile: Path -> bool)
    ensures var added := AddAll(files, wd, names, canon, isFile).state;
            forall i :: |files| <= i < |added| ==> StartsWith(added[i], wd) && isFile(added[i])
  {
    var added := AddAll(files, wd, names, canon, isFile).state;
    var f := Admitter(wd, canon, isFile);
    ExtendStopsAtFirstRefusal(files, names, f);
    forall i | |files| <= i < |added|
      ensures StartsWith(added[i], wd) && isFile(added[i])
    {
      var x := canon(Join(wd, Parse(names[i - |files|]))).value;
      assert f(names[i - |files|]).Ok?;
      assert added[i] == x;
      assert AddChecked([], wd, x, isFile).Ok?;
    }
  }

  /** The `assets` setter: each source is canonicalised against the working
      directory and must stay inside it; the destination is kept as given,
      to be checked when the assets are copied. */
  function SetGenericAssets(t: GenericTarget, entries: seq<(string, string)>, canon: Path -> Option<Path>)
    : (r: Partial<GenericTarget>)
    ensures r.state.(assets := t.assets) == t
    ensures t.assets.Keys <= r.state.assets.Keys
    ensures r.error.None? <==> forall i :: 0 <= i < |entries| ==> AssetSource(t.workdir, canon, entries[i].0).Ok?
    ensures (forall k :: k in t.assets ==> StartsWith(k, t.workdir)) ==>
              forall k :: k in r.state.assets ==> StartsWith(k, t.workdir)
  {
    var s := SetAssets(t.assets, t.workdir, entries, canon);
    Partial(t.(assets := s.state), s.error)
  }

  // ----- Lua conversion -----

  /** What a script hands back for a target: userdata of one of the three
      target types, userdata of any other type, or a value that is not
      userdata at all. */
  datatype LuaValue =
    | GenericData(generic: GenericTarget)
    | MsvcData(msvcName: string, outcome: Result<(), Error>, mode: Mode)
    | MinGWData(mingw: MinGWTarget)
    | OtherData
    | NotUserData

  function IntoLua(t: Target): LuaValue {
    match t
    case Generic(g) => GenericData(g)
    case Msvc(n, o, m) => MsvcData(n, o, m)
    case MinGW(m) => MinGWData(m)
  }

  /** `from_lua`: the variant matching the userdata's type; any other
      userdata is a runtime error; anything else is `unreachable!()`. */
  function FromLua(v: LuaValue): (r: Result<Target, Error>)
    ensures v.OtherData? ==> r.Err? && r.error.ScriptError?
    ensures v.NotUserData? ==> r.Err? && r.error.Panic?
    ensures r.Ok? ==> IntoLua(r.value) == v
  {
    match v
    case GenericData(g) => Ok(Generic(g))
    case MsvcData(n, o, m) => Ok(Msvc(n, o, m))
    case MinGWData(m) => Ok(MinGW(m))
    case OtherData => Err(ScriptError)
    case NotUserData => Err(Panic("unreachable!() on a target that is not userdata"))
  }

  /** Handing a target to the script and back gives the same target. */
  lemma FromLuaIntoLua(t: Target)
    ensures FromLua(IntoLua(t)) == Ok(t)
  {
  }

  // ----- Building -----

  /** What a build sees of its workspace: the `.numake` directory, the
      workspace's compiler, linker and output overrides, and processes. */
  datatype Site = Site(
    numakeDir: Path,
    compiler: Option<string>,
    linker: Option<string>,
    output: Option<string>,
    exec: Exec)

  /** A workspace setting overrides the target's whenever it is set. */
  function Override(workspace: Option<string>, target: Option<string>): (r: Option<string>)
    ensures workspace.Some? ==> r == workspace
    ensures workspace.None? ==> r == target
  {
    if workspace.None? then target else workspace
  }

  /** The generic target's tools as the source checks them: the linker
      first, then the compiler, both reported with the linker message. */
  function GenericToolsAsWritten(site: Site, t: GenericTarget): (r: Result<(string, string), Error>)
    ensures Override(site.linker, t.linker).None? ==> r == Err(ToolsetLinkerNull)
    ensures Override(site.linker, t.linker).Some? && Override(site.compiler, t.compiler).None? ==>
              r == Err(ToolsetLinkerNull)
    ensures r.Ok? <==> Override(site.compiler, t.compiler).Some? && Override(site.linker, t.linker).Some?
    ensures r.Ok? ==> r.value == (Override(site.compiler, t.compiler).value, Override(site.linker, t.linker).value)
  {
    var compiler := Override(site.compiler, t.compiler);
    var linker := Override(site.linker, t.linker);
    if linker.None? then Err(ToolsetLinkerNull)
    else if compiler.None? then Err(ToolsetLinkerNull)
    else Ok((compiler.value, linker.value))
  }

  /** The tool check as evidently intended: a missing linker reports the
      linker, a missing compiler reports the compiler. */
  function GenericTools(site: Site, t: GenericTarget): (r: Result<(string, string), Error>)
    ensures r.Ok? <==> Override(site.compiler, t.compiler).Some? && Override(site.linker, t.linker).Some?
    ensures r.Ok? ==> r.value == (Override(site.compiler, t.compiler).value, Override(site.linker, t.linker).value)
    ensures Override(site.linker, t.linker).None? ==> r == Err(ToolsetLinkerNull)
    ensures r == Err(ToolsetLinkerNull) ==> Override(site.linker, t.linker).None?
    ensures r == Err(ToolsetCompilerNull) <==> Override(site.linker, t.linker).Some? && Override(site.compiler, t.compiler).None?
  {
    var compiler := Override(site.compiler, t.compiler);
    var linker := Override(site.linker, t.linker);
    if linker.None? then Err(ToolsetLinkerNull)
    else if compiler.None? then Err(ToolsetCompilerNull)
    else Ok((compiler.value, linker.value))
  }

  /** The two checks agree except when only the compiler is missing,
      which the source reports as a missing linker. */
  lemma MissingCompilerReportedAsLinker(site: Site, t: GenericTarget)
    requires Override(site.linker, t.linker).Some? && Override(site.compiler, t.compiler).None?
    ensures GenericToolsAsWritten(site, t) == Err(ToolsetLinkerNull)
    ensures GenericTools(site, t) == Err(ToolsetCompilerNull)
  {
  }

  lemma ToolChecksAgreeOtherwise(site: Site, t: GenericTarget)
    requires Override(site.linker, t.linker).None? || Override(site.compiler, t.compiler).Some?
    ensures GenericToolsAsWritten(site, t) == GenericTools(site, t)
  {
  }

  /** A concrete case: a linker but no compiler anywhere. */
  lemma MissingCompilerExample(numakeDir: Path, exec: Exec, workdir: Path)
    ensures var site := Site(numakeDir, None, Some("ld"), None, exec);
            var t := NewGeneric("app", None, None, None, workdir);
            GenericToolsAsWritten(site, t) == Err(ToolsetLinkerNull) &&
            GenericTools(site, t) == Err(ToolsetCompilerNull)
  {
  }

  /** One generic source: the object is the source's path relative to the
      working directory with ".o" appended, under the object directory
      (aborting when there is none); a failing compiler ends the build
      with its stderr. */
  function GenericCompileOne(t: GenericTarget, compiler: string, objDir: Path, exec: Exec, file: Path): (r: Result<string, Error>)
    ensures ObjectFile(objDir, t.workdir, file, ".o").None? ==> r.Err? && r.error.Panic?
    ensures ObjectFile(objDir, t.workdir, file, ".o").Some? ==>
              var obj := ObjectFile(objDir, t.workdir, file, ".o").value;
              var inv := Invocation(compiler, CompileArgs(t.opts, obj, file));
              && (r.Ok? <==> Run(ErrStderr, inv, exec(inv)).Ok?)
              && (r.Ok? ==> r.value == Render(obj))
  {
    match ObjectFile(objDir, t.workdir, file, ".o")
    case None => Err(Panic("diff_paths(...).unwrap() on a source with no relative path"))
    case Some(obj) =>
      var inv := Invocation(compiler, CompileArgs(t.opts, obj, file));
      var _ :- Run(ErrStderr, inv, exec(inv));
      Ok(Render(obj))
  }

  function GenericCompileEach(t: GenericTarget, compiler: string, objDir: Path, exec: Exec): Path -> Result<string, Error> {
    file => GenericCompileOne(t, compiler, objDir, exec, file)
  }

  /** The generic link over the given objects with the effective linker:
      "-L", "-l", the linker flags and the output last; a failure is read
      from the standard error. */
  function GenericLinkRun(site: Site, t: GenericTarget, linker: string, objects: seq<string>): Result<int, Error> {
    var link := Invocation(linker, GenericCompiler.LinkArgs(t.opts, objects, BuildDir(site.numakeDir, "out", t.name),
                                                            LibTarget.OutputOf(site.output, t.output)));
    Run(ErrStderr, link, site.exec(link))
  }

  /** The generic `build`: check the tools as the source does (a missing
      compiler is reported as a missing linker), compile every source in
      order, link the objects, copy the assets; the first failure ends the
      build with its error. */
  function BuildGeneric(site: Site, t: GenericTarget): (r: Result<set<Copy>, Error>)
    ensures GenericToolsAsWritten(site, t).Err? ==> r == Err(GenericToolsAsWritten(site, t).error)
    ensures GenericToolsAsWritten(site, t).Ok? ==>
              var tools := GenericToolsAsWritten(site, t).value;
              var compiled := FailFast.Traverse(t.files, GenericCompileEach(t, tools.0, BuildDir(site.numakeDir, "obj", t.name), site.exec));
              && (compiled.Err? ==> r == Err(compiled.error))
              && (compiled.Ok? ==>
                    var link := GenericLinkRun(site, t, tools.1, compiled.value);
                    && (link.Err? ==> r == Err(link.error))
                    && (link.Ok? ==> r == CopyAll(t.assets, BuildDir(site.numakeDir, "out", t.name))))
  {
    var tools :- GenericToolsAsWritten(site, t);
    var objDir := BuildDir(site.numakeDir, "obj", t.name);
    var outDir := BuildDir(site.numakeDir, "out", t.name);
    var objects :- FailFast.Traverse(t.files, GenericCompileEach(t, tools.0, objDir, site.exec));
    var _ :- GenericLinkRun(site, t, tools.1, objects);
    CopyAll(t.assets, outDir)
  }

  /** A generic build succeeds exactly when both tools are there, every
      source compiles with the effective compiler, the effective linker
      succeeds on the objects (each named after its source's path relative
      to the working directory, in list order), and every asset
      destination stays inside the output directory; the result is then
      every asset's copy. */
  lemma {:induction false} GenericBuildSucceeds(site: Site, t: GenericTarget)
    ensures var tools := GenericToolsAsWritten(site, t);
            var objDir := BuildDir(site.numakeDir, "obj", t.name);
            BuildGeneric(site, t).Ok? <==>
              && tools.Ok?
              && var compiled := FailFast.Traverse(t.files, GenericCompileEach(t, tools.value.0, objDir, site.exec));
                 && compiled.Ok?
                 && GenericLinkRun(site, t, tools.value.1, compiled.value).Ok?
                 && forall k :: k in t.assets ==> Inside(BuildDir(site.numakeDir, "out", t.name), Parse(t.assets[k]))
    ensures GenericToolsAsWritten(site, t).Ok? ==>
              var compiler := GenericToolsAsWritten(site, t).value.0;
              var objDir := BuildDir(site.numakeDir, "obj", t.name);
              var compiled := FailFast.Traverse(t.files, GenericCompileEach(t, compiler, objDir, site.exec));
              && (compiled.Ok? <==> forall i :: 0 <= i < |t.files| ==> GenericCompileOne(t, compiler, objDir, site.exec, t.files[i]).Ok?)
              && (compiled.Ok? ==>
                    forall i :: 0 <= i < |t.files| ==>
                      ObjectFile(objDir, t.workdir, t.files[i], ".o").Some?
                      && compiled.value[i] == Render(ObjectFile(objDir, t.workdir, t.files[i], ".o").value))
    ensures BuildGeneric(site, t).Ok? ==>
              forall c :: c in BuildGeneric(site, t).value <==>
                c.from in t.assets && c == Copy(c.from, Join(BuildDir(site.numakeDir, "out", t.name), Parse(t.assets[c.from])))
  {
    if GenericToolsAsWritten(site, t).Ok? {
      var tools := GenericToolsAsWritten(site, t).value;
      var objDir := BuildDir(site.numakeDir, "obj", t.name);
      var each := GenericCompileEach(t, tools.0, objDir, site.exec);
      var compiled := FailFast.Traverse(t.files, each);
      assert forall i :: 0 <= i < |t.files| ==> each(t.files[i]) == GenericCompileOne(t, tools.0, objDir, site.exec, t.files[i]);
      if compiled.Ok? {
        forall i | 0 <= i < |t.files|
          ensures ObjectFile(objDir, t.workdir, t.files[i], ".o").Some?
          ensures compiled.value[i] == Render(ObjectFile(objDir, t.workdir, t.files[i], ".o").value)
        {
          assert each(t.files[i]).Ok?;
        }
      }
    }
  }

  /** The MinGW driver: g++ for C++ (the default language), gcc for any
      other language. */
  function MinGWDriver(t: MinGWTarget): (r: string)
    ensures LibTarget.IsCpp(t.lang) ==> r == LibTarget.Prefix(t.arch) + "g++"
    ensures !LibTarget.IsCpp(t.lang) ==> r == LibTarget.Prefix(t.arch) + "gcc"
  {
    LibTarget.Prefix(t.arch) + (if LibTarget.IsCpp(t.lang) then "g++" else "gcc")
  }

  /** One MinGW source or resource script: `tool` writes the object named
      after the file's path relative to the working directory with ".o"
      appended under `dir`; a non-zero exit ends the build with the exit
      status. */
  function MinGWStepOne(t: MinGWTarget, dir: Path, exec: Exec, resource: bool, file: Path): (r: Result<string, Error>)
    ensures ObjectFile(dir, t.workdir, file, ".o").None? ==> r.Err? && r.error.Panic?
    ensures ObjectFile(dir, t.workdir, file, ".o").Some? ==>
              var obj := ObjectFile(dir, t.workdir, file, ".o").value;
              var inv := if resource then Invocation(LibTarget.Prefix(t.arch) + "windres", MinGWCompiler.ResourceArgs(t.opts, file, obj))
                         else Invocation(MinGWDriver(t), CompileArgs(t.opts, obj, file));
              && (r.Ok? <==> Run(ErrStatus, inv, exec(inv)).Ok?)
              && (r.Ok? ==> r.value == Render(obj))
              && (r.Err? ==> r.error == Run(ErrStatus, inv, exec(inv)).error)
  {
    match ObjectFile(dir, t.workdir, file, ".o")
    case None => Err(Panic("diff_paths(...).unwrap() on a file with no relative path"))
    case Some(obj) =>
      var inv := if resource then Invocation(LibTarget.Prefix(t.arch) + "windres", MinGWCompiler.ResourceArgs(t.opts, file, obj))
                 else Invocation(MinGWDriver(t), CompileArgs(t.opts, obj, file));
      var _ :- Run(ErrStatus, inv, exec(inv));
      Ok(Render(obj))
  }

  function MinGWStepEach(t: MinGWTarget, dir: Path, exec: Exec, resource: bool): Path -> Result<string, Error> {
    file => MinGWStepOne(t, dir, exec, resource, file)
  }

  /** The `ld` arguments: the objects, the module definitions, "-L" for
      every library path, "-l" for every library, the linker flags as
      given, and the output last. */
  function LdArgs(o: Options, objects: seq<string>, defs: seq<string>, outDir: Path, output: string): (r: seq<string>)
    ensures |r| == |objects| + |defs| + |o.libPaths| + |o.libs| + |o.linkerFlags| + 1
    ensures r[..|objects|] == objects
    ensures r[|objects|..|objects| + |defs|] == defs
    ensures forall i :: 0 <= i < |o.libPaths| ==> r[|objects| + |defs| + i] == "-L" + o.libPaths[i]
    ensures forall i :: 0 <= i < |o.libs| ==> r[|objects| + |defs| + |o.libPaths| + i] == "-l" + o.libs[i]
    ensures forall i :: 0 <= i < |o.linkerFlags| ==>
              r[|objects| + |defs| + |o.libPaths| + |o.libs| + i] == o.linkerFlags[i]
    ensures r[|r| - 1] == OutputArg(outDir, output)
  {
    objects + defs + Prefixed("-L", o.libPaths) + Prefixed("-l", o.libs) + o.linkerFlags + [OutputArg(outDir, output)]
  }

  /** The MinGW link: `ar` for a static library, `ld` otherwise. */
  function MinGWLink(t: MinGWTarget, objects: seq<string>, outDir: Path, output: string): (r: Invocation)
    ensures t.staticLib ==> r == Invocation(LibTarget.Prefix(t.arch) + "ar", ArArgs(objects, Rendered(t.defFiles), outDir, output))
    ensures !t.staticLib ==> r == Invocation(LibTarget.Prefix(t.arch) + "ld", LdArgs(t.opts, objects, Rendered(t.defFiles), outDir, output))
  {
    if t.staticLib then Invocation(LibTarget.Prefix(t.arch) + "ar", ArArgs(objects, Rendered(t.defFiles), outDir, output))
    else Invocation(LibTarget.Prefix(t.arch) + "ld", LdArgs(t.opts, objects, Rendered(t.defFiles), outDir, output))
  }

  /** The MinGW link over the given objects, a non-zero exit failing
      with the status. */
  function MinGWLinkRun(site: Site, t: MinGWTarget, objects: seq<string>): Result<int, Error> {
    var link := MinGWLink(t, objects, BuildDir(site.numakeDir, "out", t.name), LibTarget.OutputOf(site.output, t.output));
    Run(ErrStatus, link, site.exec(link))
  }

  /** The MinGW `build`: compile, windres, link, copy the assets, the
      first failure ending the build with its error. */
  function BuildMinGW(site: Site, t: MinGWTarget): (r: Result<set<Copy>, Error>)
    ensures var compiled := FailFast.Traverse(t.files, MinGWStepEach(t, BuildDir(site.numakeDir, "obj", t.name), site.exec, false));
            && (compiled.Err? ==> r == Err(compiled.error))
            && (compiled.Ok? ==>
                  var coffs := FailFast.Traverse(t.resources, MinGWStepEach(t, BuildDir(site.numakeDir, "res", t.name), site.exec, true));
                  && (coffs.Err? ==> r == Err(coffs.error))
                  && (coffs.Ok? ==>
                        var link := MinGWLinkRun(site, t, compiled.value + coffs.value);
                        && (link.Err? ==> r == Err(link.error))
                        && (link.Ok? ==> r == CopyAll(t.assets, BuildDir(site.numakeDir, "out", t.name)))))
  {
    var objDir := BuildDir(site.numakeDir, "obj", t.name);
    var outDir := BuildDir(site.numakeDir, "out", t.name);
    var resDir := BuildDir(site.numakeDir, "res", t.name);
    var objects :- FailFast.Traverse(t.files, MinGWStepEach(t, objDir, site.exec, false));
    var coffs :- FailFast.Traverse(t.resources, MinGWStepEach(t, resDir, site.exec, true));
    var _ :- MinGWLinkRun(site, t, objects + coffs);
    CopyAll(t.assets, outDir)
  }

  /** A MinGW build succeeds exactly when every compile and every windres
      succeeds, the link of the objects and then the COFF objects, in list
      order, succeeds, and every asset destination stays inside the output
      directory; the result is then every asset's copy. */
  lemma {:induction false} MinGWBuildSucceeds(site: Site, t: MinGWTarget)
    ensures var objDir := BuildDir(site.numakeDir, "obj", t.name);
            var resDir := BuildDir(site.numakeDir, "res", t.name);
            var compiled := FailFast.Traverse(t.files, MinGWStepEach(t, objDir, site.exec, false));
            var coffs := FailFast.Traverse(t.resources, MinGWStepEach(t, resDir, site.exec, true));
            && (compiled.Ok? <==> forall i :: 0 <= i < |t.files| ==> MinGWStepOne(t, objDir, site.exec, false, t.files[i]).Ok?)
            && (coffs.Ok? <==> forall i :: 0 <= i < |t.resources| ==> MinGWStepOne(t, resDir, site.exec, true, t.resources[i]).Ok?)
            && (BuildMinGW(site, t).Ok? <==>
                  && compiled.Ok? && coffs.Ok?
                  && MinGWLinkRun(site, t, compiled.value + coffs.value).Ok?
                  && forall k :: k in t.assets ==> Inside(BuildDir(site.numakeDir, "out", t.name), Parse(t.assets[k])))
    ensures BuildMinGW(site, t).Ok? ==>
              forall c :: c in BuildMinGW(site, t).value <==>
                c.from in t.assets && c == Copy(c.from, Join(BuildDir(site.numakeDir, "out", t.name), Parse(t.assets[c.from])))
  {
    var objDir := BuildDir(site.numakeDir, "obj", t.name);
    var resDir := BuildDir(site.numakeDir, "res", t.name);
    var compiles := MinGWStepEach(t, objDir, site.exec, false);
    var windres := MinGWStepEach(t, resDir, site.exec, true);
    assert forall i :: 0 <= i < |t.files| ==> compiles(t.files[i]) == MinGWStepOne(t, objDir, site.exec, false, t.files[i]);
    assert forall i :: 0 <= i < |t.resources| ==> windres(t.resources[i]) == MinGWStepOne(t, resDir, site.exec, true, t.resources[i]);
  }

  /** `build` dispatched to the wrapped target. */
  function BuildTarget(site: Site, t: Target): (r: Result<(), Error>)
    ensures t.Generic? ==> (r.Ok? <==> BuildGeneric(site, t.generic).Ok?)
    ensures t.MinGW? ==> (r.Ok? <==> BuildMinGW(site, t.mingw).Ok?)
    ensures t.Msvc? ==> r == t.outcome
  {
    match t
    case Generic(g) => var _ :- BuildGeneric(site, g); Ok(())
    case MinGW(m) => var _ :- BuildMinGW(site, m); Ok(())
    case Msvc(_, outcome, _) => outcome
  }

  /** `execute` dispatched to the wrapped target: the generic target
      fails with stderr, the MinGW target with the exit status. */
  function Execute(t: Target, inv: Invocation, o: Outcome): (r: Result<int, Error>)
    ensures t.Generic? ==> r == Run(ErrStderr, inv, o)
    ensures t.MinGW? ==> r == Run(ErrStatus, inv, o)
    ensures t.Msvc? ==> r == Run(t.mode, inv, o)
  {
    match t
    case Generic(_) => Run(ErrStderr, inv, o)
    case MinGW(_) => Run(ErrStatus, inv, o)
    case Msvc(_, _, mode) => Run(mode, inv, o)
  }

  function Builder(site: Site): Target -> Result<(), Error> {
    t => BuildTarget(site, t)
  }

  /** The custom target's `build`: its sub-targets in order, stopping at
      the first failure. */
  function BuildCustom(site: Site, c: CustomTarget): (r: Result<(), Error>)
    ensures r.Ok? <==> forall i :: 0 <= i < |c.subTargets| ==> BuildTarget(site, c.subTargets[i]).Ok?
    ensures r.Err? ==> var k := FailFast.FirstFailure(c.subTargets, Builder(site));
                       k < |c.subTargets| && r == BuildTarget(site, c.subTargets[k])
                       && forall j :: 0 <= j < k ==> BuildTarget(site, c.subTargets[j]).Ok?
  {
    match FailFast.Traverse(c.subTargets, Builder(site))
    case Ok(_) => Ok(())
    case Err(e) => Err(e)
  }
}
