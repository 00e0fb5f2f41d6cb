/** The `src/lib/target` revision's targets: MinGW and MSVC targets that
    keep their own file lists, option lists and asset map, and custom
    targets that build a list of other targets. A target is built inside
    a workspace that supplies the `.numake` directory, an output-name
    override and the machine (processes, the MSVC toolchain). The
    `GenericTarget` of this revision (`src/lib/target/generic.rs`) is not
    part of this model; its build outcome is a parameter. */
module LibTarget {
  import opened Wrappers
  import opened Errors
  import opened Paths
  import opened Process
  import opened Assets
  import opened Sandbox
  import opened Toolchain
  import opened MsvcEnv
  import MsvcCompiler
  import MinGWCompiler
  import FailFast
  import CustomTargets

  /** What the MinGW and MSVC targets share: the name, the working
      directory every file must lie under, the command-line lists, the
      output name, the three file lists, the asset map (canonical source to
      destination), the architecture and whether a static library is
      built. */
  datatype Fields = Fields(
    name: string,
    workdir: Path,
    opts: Options,
    output: Option<string>,
    files: seq<Path>,
    resources: seq<Path>,
    defFiles: seq<Path>,
    assets: map<Path, string>,
    arch: Option<string>,
    staticLib: bool)

  datatype MinGWTarget = MinGWTarget(fields: Fields, windresFlags: seq<string>, lang: string)

  datatype MsvcTarget = MsvcTarget(fields: Fields, rcFlags: seq<string>)

  type CustomTarget = CustomTargets.CustomTarget<Target>

  datatype Target =
    | MinGW(mingw: MinGWTarget)
    | Msvc(msvc: MsvcTarget)
    | Custom(custom: CustomTargets.CustomTarget<Target>)
    /** A generic target, whose build is not modelled: what building it
        gives. */
    | Generic(genericName: string, outcome: Result<(), Error>)

  const NoOptions: Options := Options([], [], [], [], [], [])

  /** The fields of a new target: every list and the asset map empty, no
      architecture, not a static library. */
  function NewFields(name: string, output: Option<string>, workdir: Path): (f: Fields)
    ensures f.name == name && f.output == output && f.workdir == workdir
    ensures f.opts == Options([], [], [], [], [], [])
    ensures f.files == [] && f.resources == [] && f.defFiles == [] && f.assets == map[]
    ensures f.arch == None && !f.staticLib
  {
    Fields(name, workdir, NoOptions, output, [], [], [], map[], None, false)
  }

  /** `MinGWTarget::new`: the language defaults to "C++". */
  function NewMinGW(name: string, output: Option<string>, workdir: Path): (t: MinGWTarget)
    ensures t.fields == NewFields(name, output, workdir)
    ensures t.lang == "C++" && t.windresFlags == []
  {
    MinGWTarget(NewFields(name, output, workdir), [], "C++")
  }

  function NewMsvc(name: string, output: Option<string>, workdir: Path): (t: MsvcTarget)
    ensures t.fields == NewFields(name, output, workdir) && t.rcFlags == []
  {
    MsvcTarget(NewFields(name, output, workdir), [])
  }

  /** `get_name`: the name of the wrapped target. */
  function GetName(t: Target): (n: string)
    ensures t.MinGW? ==> n == t.mingw.fields.name
    ensures t.Msvc? ==> n == t.msvc.fields.name
    ensures t.Custom? ==> n == t.custom.name
    ensures t.Generic? ==> n == t.genericName
  {
    match t
    case MinGW(m) => m.fields.name
    case Msvc(m) => m.fields.name
    case Custom(c) => c.name
    case Generic(n, _) => n
  }

  // ----- Setters -----

  /** The option lists a script can assign. */
  datatype ListField = IncludePaths | Defines | CompilerFlags | LibPaths | Libs | LinkerFlags

  function GetList(o: Options, f: ListField): seq<string> {
    match f
    case IncludePaths => o.includePaths
    case Defines => o.defines
    case CompilerFlags => o.compilerFlags
    case LibPaths => o.libPaths
    case Libs => o.libs
    case LinkerFlags => o.linkerFlags
  }

  /** The plain list setters replace the whole list and touch no other. */
  function SetList(o: Options, f: ListField, v: seq<string>): (r: Options)
    ensures GetList(r, f) == v
    ensures forall g :: g != f ==> GetList(r, g) == GetList(o, g)
  {
    match f
    case IncludePaths => o.(includePaths := v)
    case Defines => o.(defines := v)
    case CompilerFlags => o.(compilerFlags := v)
    case LibPaths => o.(libPaths := v)
    case Libs => o.(libs := v)
    case LinkerFlags => o.(linkerFlags := v)
  }

  /** The file lists a script can extend. */
  datatype FileList = Files | Resources | DefFiles

  function GetFiles(f: Fields, l: FileList): seq<Path> {
    match l
    case Files => f.files
    case Resources => f.resources
    case DefFiles => f.defFiles
  }

  function WithFiles(f: Fields, l: FileList, files: seq<Path>): (r: Fields)
    ensures GetFiles(r, l) == files
    ensures forall m :: m != l ==> GetFiles(r, m) == GetFiles(f, m)
    ensures r.(files := f.files, resources := f.resources, defFiles := f.defFiles) == f
  {
    match l
    case Files => f.(files := files)
    case Resources => f.(resources := files)
    case DefFiles => f.(defFiles := files)
  }

  /** The `files`, `resource_files` and `def_files` setters: the names are
      added one by one through `add_file`, `add_rc_file` or `add_def_file`
      (see `Sandbox.AddAll`); the target keeps whatever was added before an
      error. */
  function SetFiles(f: Fields, l: FileList, names: seq<string>, canon: Path -> Option<Path>,
                    isFile: Path -> bool): (r: Partial<Fields>)
    ensures GetFiles(f, l) <= GetFiles(r.state, l)
    ensures forall m :: m != l ==> GetFiles(r.state, m) == GetFiles(f, m)
    ensures r.state.(files := f.files, resources := f.resources, defFiles := f.defFiles) == f
  {
    var added := AddAll(GetFiles(f, l), f.workdir, names, canon, isFile);
    Partial(WithFiles(f, l, added.state), added.error)
  }

  /** The `assets` setter, through `Sandbox.SetAssets`. */
  function SetAssetsOf(f: Fields, entries: seq<(string, string)>, canon: Path -> Option<Path>): (r: Partial<Fields>)
    ensures r.state.(assets := f.assets) == f
    ensures f.assets.Keys <= r.state.assets.Keys
  {
    var set_ := SetAssets(f.assets, f.workdir, entries, canon);
    Partial(f.(assets := set_.state), set_.error)
  }

  /** The sandbox invariant of a target: every file of every list and every
      asset source lies below the working directory. */
  predicate Sound(f: Fields) {
    && AllInside(f.files, f.workdir)
    && AllInside(f.resources, f.workdir)
    && AllInside(f.defFiles, f.workdir)
    && (forall k :: k in f.assets ==> StartsWith(k, f.workdir))
  }

  /** A new target is sound, and every setter keeps it sound, whether it
      succeeds or stops at an error. */
  lemma NewIsSound(name: string, output: Option<string>, workdir: Path)
    ensures Sound(NewFields(name, output, workdir))
  {
  }

  lemma {:induction false} SetFilesKeepsSound(f: Fields, l: FileList, names: seq<string>, canon: Path -> Option<Path>,
                                              isFile: Path -> bool)
    requires Sound(f)
    ensures Sound(SetFiles(f, l, names, canon, isFile).state)
  {
    AddAllKeepsInside(GetFiles(f, l), f.workdir, names, canon, isFile);
  }

  lemma SetAssetsKeepsSound(f: Fields, entries: seq<(string, string)>, canon: Path -> Option<Path>)
    requires Sound(f)
    ensures Sound(SetAssetsOf(f, entries, canon).state)
  {
  }

  lemma SetListKeepsSound(f: Fields, l: ListField, v: seq<string>)
    requires Sound(f)
    ensures Sound(f.(opts := SetList(f.opts, l, v)))
  {
  }

  /** The `files` getter of a sound target never aborts and gives paths
      that lead back to the stored files. */
  lemma SoundFilesReadBack(f: Fields, l: FileList)
    requires Sound(f)
    ensures Relatives(GetFiles(f, l), f.workdir).Ok?
    ensures forall i :: 0 <= i < |GetFiles(f, l)| ==>
              Join(f.workdir, Relatives(GetFiles(f, l), f.workdir).value[i]) == GetFiles(f, l)[i]
  {
    RelativesRoundTrip(GetFiles(f, l), f.workdir);
  }

  // ----- Building -----

  /** What a build sees of its workspace and machine: the `.numake`
      directory, the workspace's output override, whether this is Windows,
      processes without and with an environment, the MSVC host and the
      scratch files of the MSVC setup. */
  datatype Site = Site(
    numakeDir: Path,
    output: Option<string>,
    windows: bool,
    exec: Exec,
    envExec: MsvcCompiler.EnvExec,
    host: Host,
    scratch: MsvcCompiler.Scratch)

  /** The output name: the workspace's override whenever it is set, else the
      target's own, else "out". */
  function OutputOf(workspace: Option<string>, target: Option<string>): (r: string)
    ensures workspace.Some? ==> r == workspace.value
    ensures workspace.None? && target.Some? ==> r == target.value
    ensures workspace.None? && target.None? ==> r == "out"
  {
    (if workspace.None? then target else workspace).GetOr("out")
  }

  /** The tool prefix: the architecture (default "x86_64") and
      "-w64-mingw32-". */
  function Prefix(arch: Option<string>): (r: string)
    ensures arch.None? ==> r == "x86_64-w64-mingw32-"
    ensures arch.Some? ==> r == arch.value + "-w64-mingw32-"
  {
    arch.GetOr("x86_64") + "-w64-mingw32-"
  }

  /** `lang.to_lowercase() == "c++"`: '+' has no case, so only "c++" and
      "C++" qualify. */
  predicate IsCpp(lang: string) {
    lang == "c++" || lang == "C++"
  }

  /** g++ for C++ (the default language), gcc for anything else. */
  function Driver(t: MinGWTarget): (r: string)
    ensures IsCpp(t.lang) ==> r == Prefix(t.fields.arch) + "g++"
    ensures !IsCpp(t.lang) ==> r == Prefix(t.fields.arch) + "gcc"
  {
    Prefix(t.fields.arch) + (if IsCpp(t.lang) then "g++" else "gcc")
  }

  lemma NewMinGWUsesGpp(name: string, output: Option<string>, workdir: Path)
    ensures Driver(NewMinGW(name, output, workdir)) == "x86_64-w64-mingw32-g++"
  {
  }

  /** The IntelliSense mode's architecture: i686 is "x86", x86_64 is "x64",
      any other architecture is itself, and none is "${default}". */
  function IntellisenseArch(arch: Option<string>): (r: string)
    ensures arch == Some("i686") ==> r == "x86"
    ensures arch == Some("x86_64") ==> r == "x64"
    ensures arch.Some? && arch.value != "i686" && arch.value != "x86_64" ==> r == arch.value
    ensures arch.None? ==> r == "${default}"
  {
    if arch == Some("i686") then "x86"
    else if arch == Some("x86_64") then "x64"
    else arch.GetOr("${default}")
  }

  /** The IntelliSense mode string "<os>-gcc-<arch>". */
  function IntellisenseMode(os: string, arch: Option<string>): string {
    os + "-gcc-" + IntellisenseArch(arch)
  }

  /** One MinGW source: the object is named after the source's path
      relative to the working directory with ".o" appended (aborting when
      there is none); the compiler's failure ends the build with its
      stderr. */
  function MinGWCompileOne(t: MinGWTarget, objDir: Path, exec: Exec, file: Path): (r: Result<string, Error>)
    ensures ObjectFile(objDir, t.fields.workdir, file, ".o").None? ==> r.Err? && r.error.Panic?
    ensures ObjectFile(objDir, t.fields.workdir, file, ".o").Some? ==>
              var obj := ObjectFile(objDir, t.fields.workdir, file, ".o").value;
              var inv := Invocation(Driver(t), CompileArgs(t.fields.opts, obj, file));
              && (r.Ok? <==> Run(ErrStderr, inv, exec(inv)).Ok?)
              && (r.Ok? ==> r.value == Render(obj))
  {
    match ObjectFile(objDir, t.fields.workdir, file, ".o")
    case None => Err(Panic("diff_paths(...).unwrap() on a source with no relative path"))
    case Some(obj) =>
      var inv := Invocation(Driver(t), CompileArgs(t.fields.opts, obj, file));
      var _ :- Run(ErrStderr, inv, exec(inv));
      Ok(Render(obj))
  }

  function MinGWCompileEach(t: MinGWTarget, objDir: Path, exec: Exec): Path -> Result<string, Error> {
    file => MinGWCompileOne(t, objDir, exec, file)
  }

  /** One MinGW resource script: windres writes the COFF object under the
      resource directory, and the object joins the link only after
      success. */
  function MinGWResourceOne(t: MinGWTarget, resDir: Path, exec: Exec, file: Path): (r: Result<string, Error>)
    ensures ObjectFile(resDir, t.fields.workdir, file, ".o").None? ==> r.Err? && r.error.Panic?
    ensures ObjectFile(resDir, t.fields.workdir, file, ".o").Some? ==>
              var coff := ObjectFile(resDir, t.fields.workdir, file, ".o").value;
              var inv := Invocation(Prefix(t.fields.arch) + "windres", MinGWCompiler.ResourceArgs(t.fields.opts, file, coff));
              && (r.Ok? <==> Run(ErrStderr, inv, exec(inv)).Ok?)
              && (r.Ok? ==> r.value == Render(coff))
  {
    match ObjectFile(resDir, t.fields.workdir, file, ".o")
    case None => Err(Panic("diff_paths(...).unwrap() on a resource with no relative path"))
    case Some(coff) =>
      var inv := Invocation(Prefix(t.fields.arch) + "windres", MinGWCompiler.ResourceArgs(t.fields.opts, file, coff));
      var _ :- Run(ErrStderr, inv, exec(inv));
      Ok(Render(coff))
  }

  function MinGWResourceEach(t: MinGWTarget, resDir: Path, exec: Exec): Path -> Result<string, Error> {
    file => MinGWResourceOne(t, resDir, exec, file)
  }

  /** The MinGW link: `ar` over every object and the module definitions
      for a static library; otherwise the compiler driver with the
      objects, the module definitions, "-L", "-l", the compiler flags,
      "-Wl," linker flags and the output. The objects are passed as they
      were produced, not made relative. */
  function MinGWLink(t: MinGWTarget, objects: seq<string>, outDir: Path, output: string): (r: Invocation)
    ensures t.fields.staticLib ==>
              r == Invocation(Prefix(t.fields.arch) + "ar", ArArgs(objects, Rendered(t.fields.defFiles), outDir, output))
    ensures !t.fields.staticLib ==>
              r == Invocation(Driver(t), GccLinkArgs(t.fields.opts, objects, Rendered(t.fields.defFiles), outDir, output))
  {
    if t.fields.staticLib then Invocation(Prefix(t.fields.arch) + "ar", ArArgs(objects, Rendered(t.fields.defFiles), outDir, output))
    else Invocation(Driver(t), GccLinkArgs(t.fields.opts, objects, Rendered(t.fields.defFiles), outDir, output))
  }

  /** The MinGW link over the given objects, run with its failure read
      from the standard error. */
  function MinGWLinkRun(site: Site, t: MinGWTarget, objects: seq<string>): Result<int, Error> {
    var link := MinGWLink(t, objects, BuildDir(site.numakeDir, "out", t.fields.name), OutputOf(site.output, t.fields.output));
    Run(ErrStderr, link, site.exec(link))
  }

  /** The MinGW `build`: compile every source, compile every resource
      script, link, copy the assets into the output directory; each step
      in order, the first failure ending the build with its error. */
  function BuildMinGW(site: Site, t: MinGWTarget): (r: Result<set<Copy>, Error>)
    ensures var objDir := BuildDir(site.numakeDir, "obj", t.fields.name);
            var compiled := FailFast.Traverse(t.fields.files, MinGWCompileEach(t, objDir, site.exec));
            && (compiled.Err? ==> r == Err(compiled.error))
            && (compiled.Ok? ==>
                  var coffs := FailFast.Traverse(t.fields.resources,
                                                 MinGWResourceEach(t, BuildDir(site.numakeDir, "res", t.fields.name), site.exec));
                  && (coffs.Err? ==> r == Err(coffs.error))
                  && (coffs.Ok? ==>
                        var link := MinGWLinkRun(site, t, compiled.value + coffs.value);
                        && (link.Err? ==> r == Err(link.error))
                        && (link.Ok? ==> r == CopyAll(t.fields.assets, BuildDir(site.numakeDir, "out", t.fields.name)))))
  {
    var objDir := BuildDir(site.numakeDir, "obj", t.fields.name);
    var outDir := BuildDir(site.numakeDir, "out", t.fields.name);
    var resDir := BuildDir(site.numakeDir, "res", t.fields.name);
    var objects :- FailFast.Traverse(t.fields.files, MinGWCompileEach(t, objDir, site.exec));
    var coffs :- FailFast.Traverse(t.fields.resources, MinGWResourceEach(t, resDir, site.exec));
    var _ :- MinGWLinkRun(site, t, objects + coffs);
    CopyAll(t.fields.assets, outDir)
  }

  /** A sound MinGW target never aborts on an object name: every source
      and every resource script has one. */
  lemma SoundMinGWHasObjects(t: MinGWTarget, dir: Path)
    requires Sound(t.fields)
    ensures forall i :: 0 <= i < |t.fields.files| ==> ObjectFile(dir, t.fields.workdir, t.fields.files[i], ".o").Some?
    ensures forall i :: 0 <= i < |t.fields.resources| ==> ObjectFile(dir, t.fields.workdir, t.fields.resources[i], ".o").Some?
  {
    forall i | 0 <= i < |t.fields.files|
      ensures DiffPaths(t.fields.files[i], t.fields.workdir).Some?
    {
      DiffPathsInverse(t.fields.files[i], t.fields.workdir);
    }
    forall i | 0 <= i < |t.fields.resources|
      ensures DiffPaths(t.fields.resources[i], t.fields.workdir).Some?
    {
      DiffPathsInverse(t.fields.resources[i], t.fields.workdir);
    }
  }

  /** A MinGW build succeeds exactly when every source and every resource
      script compiles, the link of their objects (sources first, in list
      order) succeeds, and every asset destination stays inside the output
      directory; the result is then every asset's copy. */
  lemma {:induction false} MinGWBuildSucceeds(site: Site, t: MinGWTarget)
    ensures var objDir := BuildDir(site.numakeDir, "obj", t.fields.name);
            var resDir := BuildDir(site.numakeDir, "res", t.fields.name);
            var compiled := FailFast.Traverse(t.fields.files, MinGWCompileEach(t, objDir, site.exec));
            var coffs := FailFast.Traverse(t.fields.resources, MinGWResourceEach(t, resDir, site.exec));
            && (compiled.Ok? <==> forall i :: 0 <= i < |t.fields.files| ==> MinGWCompileOne(t, objDir, site.exec, t.fields.files[i]).Ok?)
            && (coffs.Ok? <==> forall i :: 0 <= i < |t.fields.resources| ==> MinGWResourceOne(t, resDir, site.exec, t.fields.resources[i]).Ok?)
            && (BuildMinGW(site, t).Ok? <==>
                  && compiled.Ok? && coffs.Ok?
                  && MinGWLinkRun(site, t, compiled.value + coffs.value).Ok?
                  && forall k :: k in t.fields.assets ==> Inside(BuildDir(site.numakeDir, "out", t.fields.name), Parse(t.fields.assets[k])))
    ensures BuildMinGW(site, t).Ok? ==>
              forall c :: c in BuildMinGW(site, t).value <==>
                c.from in t.fields.assets && c == Copy(c.from, Join(BuildDir(site.numakeDir, "out", t.fields.name), Parse(t.fields.assets[c.from])))
  {
    var objDir := BuildDir(site.numakeDir, "obj", t.fields.name);
    var resDir := BuildDir(site.numakeDir, "res", t.fields.name);
    var compiled := FailFast.Traverse(t.fields.files, MinGWCompileEach(t, objDir, site.exec));
    var coffs := FailFast.Traverse(t.fields.resources, MinGWResourceEach(t, resDir, site.exec));
    assert forall i :: 0 <= i < |t.fields.files| ==>
             MinGWCompileEach(t, objDir, site.exec)(t.fields.files[i]) == MinGWCompileOne(t, objDir, site.exec, t.fields.files[i]);
    assert forall i :: 0 <= i < |t.fields.resources| ==>
             MinGWResourceEach(t, resDir, site.exec)(t.fields.resources[i]) == MinGWResourceOne(t, resDir, site.exec, t.fields.resources[i]);
  }

  /** The toolchain environment of the MSVC `build`: the target's
      architecture, no platform type, no SDK version, the dump read as the
      source reads it (see `MsvcEnv.ParseLine`). */
  function MsvcSetup(site: Site, t: MsvcTarget): Result<EnvMap, Error> {
    Setup(site.host, ErrStdout, ParseEnv, t.fields.arch, None, None, site.scratch.batFile, site.scratch.dumpFile)
  }

  /** The MSVC link over the given objects: LIB for a static library and
      LINK otherwise. */
  function MsvcLinkRun(site: Site, t: MsvcTarget, vars: EnvMap, objects: seq<string>): Result<int, Error> {
    var f := t.fields;
    MsvcCompiler.RunTool(site.envExec, vars,
                         Invocation(MsvcCompiler.LinkTool(f.staticLib),
                                    MsvcCompiler.LinkArgs(f.opts, objects, f.defFiles, BuildDir(site.numakeDir, "out", f.name),
                                                          OutputOf(site.output, f.output))))
  }

  /** The MSVC `build`. Off Windows it fails with `MsvcWindowsOnly`. On
      Windows it captures the toolchain environment, compiles with CL,
      compiles resources with RC and CVTRES, links (objects, then resource
      objects), and copies the assets; the first failure ends the build
      with its error. Object names are relative to the working
      directory. */
  function BuildMsvc(site: Site, t: MsvcTarget): (r: Result<set<Copy>, Error>)
    ensures !site.windows ==> r == Err(MsvcWindowsOnly)
    ensures site.windows ==>
              var f := t.fields;
              var setup := MsvcSetup(site, t);
              var objDir := BuildDir(site.numakeDir, "obj", f.name);
              && (setup.Err? ==> r == Err(setup.error))
              && (setup.Ok? ==>
                    var compiled := MsvcCompiler.CompileStep(f.opts, objDir, f.workdir, site.envExec, setup.value, f.files);
                    && (compiled.Err? ==> r == Err(compiled.error))
                    && (compiled.Ok? ==>
                          var rbjs := MsvcCompiler.ResourceStep(f.opts, BuildDir(site.numakeDir, "res", f.name), objDir,
                                                                f.workdir, site.envExec, setup.value, f.resources);
                          && (rbjs.Err? ==> r == Err(rbjs.error))
                          && (rbjs.Ok? ==>
                                var link := MsvcLinkRun(site, t, setup.value, compiled.value + rbjs.value);
                                && (link.Err? ==> r == Err(link.error))
                                && (link.Ok? ==> r == CopyAll(f.assets, BuildDir(site.numakeDir, "out", f.name))))))
  {
    if !site.windows then Err(MsvcWindowsOnly)
    else
      var f := t.fields;
      var objDir := BuildDir(site.numakeDir, "obj", f.name);
      var outDir := BuildDir(site.numakeDir, "out", f.name);
      var resDir := BuildDir(site.numakeDir, "res", f.name);
      var vars :- MsvcSetup(site, t);
      var objects :- MsvcCompiler.CompileStep(f.opts, objDir, f.workdir, site.envExec, vars, f.files);
      var rbjs :- MsvcCompiler.ResourceStep(f.opts, resDir, objDir, f.workdir, site.envExec, vars, f.resources);
      var _ :- MsvcLinkRun(site, t, vars, objects + rbjs);
      CopyAll(f.assets, outDir)
  }

  /** An MSVC build succeeds exactly when it runs on Windows with a
      toolchain found, every source and every resource script compiles
      under that environment, the link of their objects (sources first,
      in list order, each named after its path relative to the working
      directory) succeeds, and every asset destination stays inside the
      output directory; the result is then every asset's copy. */
  lemma MsvcBuildSucceeds(site: Site, t: MsvcTarget)
    ensures var f := t.fields;
            var setup := MsvcSetup(site, t);
            var objDir := BuildDir(site.numakeDir, "obj", f.name);
            var resDir := BuildDir(site.numakeDir, "res", f.name);
            var outDir := BuildDir(site.numakeDir, "out", f.name);
            BuildMsvc(site, t).Ok? <==>
              && site.windows
              && setup.Ok?
              && (forall i :: 0 <= i < |f.files| ==>
                    MsvcCompiler.CompileOne(f.opts, objDir, f.workdir, site.envExec, setup.value, f.files[i]).Ok?)
              && (forall i :: 0 <= i < |f.resources| ==>
                    MsvcCompiler.ResourceOne(f.opts, resDir, objDir, f.workdir, site.envExec, setup.value, f.resources[i]).Ok?)
              && var objects := MsvcCompiler.CompileStep(f.opts, objDir, f.workdir, site.envExec, setup.value, f.files).value;
                 var rbjs := MsvcCompiler.ResourceStep(f.opts, resDir, objDir, f.workdir, site.envExec, setup.value, f.resources).value;
                 && (forall i :: 0 <= i < |f.files| ==> objects[i] == Render(ObjectFile(objDir, f.workdir, f.files[i], ".obj").value))
                 && MsvcLinkRun(site, t, setup.value, objects + rbjs).Ok?
                 && (forall k :: k in f.assets ==> Inside(outDir, Parse(f.assets[k])))
    ensures BuildMsvc(site, t).Ok? ==>
              forall c :: c in BuildMsvc(site, t).value <==>
                c.from in t.fields.assets && c == Copy(c.from, Join(BuildDir(site.numakeDir, "out", t.fields.name), Parse(t.fields.assets[c.from])))
  {
    var f := t.fields;
    var setup := MsvcSetup(site, t);
    if site.windows && setup.Ok? {
      var objDir := BuildDir(site.numakeDir, "obj", f.name);
      var resDir := BuildDir(site.numakeDir, "res", f.name);
      var compiled := MsvcCompiler.CompileStep(f.opts, objDir, f.workdir, site.envExec, setup.value, f.files);
      var rbjs := MsvcCompiler.ResourceStep(f.opts, resDir, objDir, f.workdir, site.envExec, setup.value, f.resources);
      if compiled.Ok? && rbjs.Ok? {
        assert BuildMsvc(site, t) == (var _ :- MsvcLinkRun(site, t, setup.value, compiled.value + rbjs.value);
                                      CopyAll(f.assets, BuildDir(site.numakeDir, "out", f.name)));
      }
    }
  }

  /** `build` of any target. A custom target builds its sub-targets in
      order and stops at the first failure; a custom target with none
      succeeds. */
  function BuildTarget(site: Site, t: Target): (r: Result<(), Error>)
    decreases t, 1, 0
  {
    match t
    case MinGW(m) => var _ :- BuildMinGW(site, m); Ok(())
    case Msvc(m) => var _ :- BuildMsvc(site, m); Ok(())
    case Custom(c) => BuildSubs(site, c, 0)
    case Generic(_, outcome) => outcome
  }

  /** The sub-targets of `c` from index `i` on, in order. */
  function BuildSubs(site: Site, c: CustomTarget, i: nat): Result<(), Error>
    requires i <= |c.subTargets|
    decreases c, 0, |c.subTargets| - i
  {
    if i == |c.subTargets| then Ok(())
    else
      match BuildTarget(site, c.subTargets[i])
      case Err(e) => Err(e)
      case Ok(_) => BuildSubs(site, c, i + 1)
  }

  function Builder(site: Site): Target -> Result<(), Error> {
    t => BuildTarget(site, t)
  }

  /** A custom target's build is the fail-fast loop over its sub-targets:
      it succeeds exactly when every sub-target builds, and otherwise
      reports the error of the first sub-target that fails. */
  lemma {:induction false} CustomIsFailFast(site: Site, c: CustomTarget, i: nat)
    requires i <= |c.subTargets|
    ensures var loop := FailFast.Traverse(c.subTargets[i..], Builder(site));
            && (BuildSubs(site, c, i).Ok? <==> forall j :: i <= j < |c.subTargets| ==> BuildTarget(site, c.subTargets[j]).Ok?)
            && (BuildSubs(site, c, i).Ok? <==> loop.Ok?)
            && (loop.Err? ==> BuildSubs(site, c, i) == Err(loop.error))
    decreases |c.subTargets| - i
  {
    var rest := c.subTargets[i..];
    if i < |c.subTargets| {
      assert rest[0] == c.subTargets[i];
      assert rest[1..] == c.subTargets[i + 1..];
      CustomIsFailFast(site, c, i + 1);
    }
  }

  /** A custom target with no sub-targets builds successfully. */
  lemma EmptyCustomBuilds(site: Site, name: string, description: string)
    ensures BuildTarget(site, Custom(CustomTargets.New(name, description))) == Ok(())
  {
  }
}
