/** The newest revision's MinGW back-end (`src/lib/compilers/mingw.rs`).
    Its compile step is incremental: the content hashes of sources that
    compiled before are kept in the build cache under "mingw_cache", and a
    source is recompiled only when its hash is unknown or not in that set.
    Resources go through windres, and the link uses `ar` for a static
    library and the compiler driver otherwise. */
module MinGWCompiler {
  import opened Wrappers
  import opened Errors
  import opened Paths
  import opened Process
  import opened SourceFiles
  import opened Assets
  import opened ProjectData
  import opened Toolchain
  import opened CacheStore
  import opened SharedCache
  import opened BuildCache
  import FailFast

  /** The name of the clean-set, whatever the project is called. */
  const CacheKey: string := "mingw_cache"

  /** `sha256::try_digest`: the hash of a file's contents, or None when it
      cannot be read. */
  type Digest = Path -> Option<string>

  /** `"{arch}-w64-mingw32-"`, with "x86_64" when no arch is set. */
  function ToolPrefix(p: Project): (r: string)
    ensures p.arch.Some? ==> r == p.arch.value + "-w64-mingw32-"
    ensures p.arch.None? ==> r == "x86_64-w64-mingw32-"
  {
    p.arch.GetOr("x86_64") + "-w64-mingw32-"
  }

  /** The compiler driver: gcc for C, g++ for C++. */
  function Driver(p: Project): (r: string)
    ensures p.language == C ==> r == ToolPrefix(p) + "gcc"
    ensures p.language == CPP ==> r == ToolPrefix(p) + "g++"
  {
    ToolPrefix(p) + (match p.language case C => "gcc" case CPP => "g++")
  }

  /** A source must be compiled when its hash cannot be computed or is not
      in the stored clean-set. */
  predicate Dirty(hash: Digest, clean: set<string>, f: Path) {
    hash(f).None? || hash(f).value !in clean
  }

  /** The dirty sources, in the order they are listed. */
  function DirtyFiles(files: seq<Path>, hash: Digest, clean: set<string>): (r: seq<Path>)
    ensures |r| <= |files|
  {
    if |files| == 0 then []
    else
      var init := files[..|files| - 1];
      var last := files[|files| - 1];
      assert files == init + [last];
      DirtyFiles(init, hash, clean) + (if Dirty(hash, clean, last) then [last] else [])
  }

  /** The dirty sources are exactly the listed sources that are dirty. */
  lemma {:induction false} DirtyFilesMembers(files: seq<Path>, hash: Digest, clean: set<string>, f: Path)
    ensures f in DirtyFiles(files, hash, clean) <==> f in files && Dirty(hash, clean, f)
  {
    if |files| > 0 {
      var init := files[..|files| - 1];
      assert files == init + [files[|files| - 1]];
      DirtyFilesMembers(init, hash, clean, f);
    }
  }

  /** Listing more sources only adds dirty sources at the end. */
  lemma {:induction false} DirtyFilesPrefix(files: seq<Path>, i: nat, hash: Digest, clean: set<string>)
    requires i <= |files|
    ensures DirtyFiles(files[..i], hash, clean) <= DirtyFiles(files, hash, clean)
    decreases |files| - i
  {
    if i < |files| {
      DirtyFilesPrefix(files, i + 1, hash, clean);
      assert files[..i + 1][..i] == files[..i];
    } else {
      assert files[..i] == files;
    }
  }

  /** The hashes of listed sources that are already known clean. */
  function CleanHashes(files: seq<Path>, hash: Digest, clean: set<string>): set<string> {
    set f | f in files && hash(f).Some? && hash(f).value in clean :: hash(f).value
  }

  /** The hashes of listed sources that had to be compiled, gathered in
      the order the loop meets them. */
  function DirtyHashes(files: seq<Path>, hash: Digest, clean: set<string>): (r: set<string>)
  {
    if |files| == 0 then {}
    else
      var last := files[|files| - 1];
      DirtyHashes(files[..|files| - 1], hash, clean)
        + (if hash(last).Some? && hash(last).value !in clean then {hash(last).value} else {})
  }

  /** The hash of every listed source that has one. */
  function AllHashes(files: seq<Path>, hash: Digest): set<string> {
    set f | f in files && hash(f).Some? :: hash(f).value
  }

  /** The known-clean hashes and the newly compiled ones together are the
      hashes of all listed sources. */
  lemma {:induction false} CleanAndDirtyAreAll(files: seq<Path>, hash: Digest, clean: set<string>)
    ensures CleanHashes(files, hash, clean) + DirtyHashes(files, hash, clean) == AllHashes(files, hash)
  {
    if |files| > 0 {
      var init := files[..|files| - 1];
      var last := files[|files| - 1];
      CleanAndDirtyAreAll(init, hash, clean);
      assert files == init + [last];
      assert CleanHashes(files, hash, clean)
          == CleanHashes(init, hash, clean)
             + (if hash(last).Some? && hash(last).value in clean then {hash(last).value} else {});
      assert AllHashes(files, hash) == AllHashes(init, hash) + (if hash(last).Some? then {hash(last).value} else {});
    }
  }

  lemma TakeOneMore<T>(xs: seq<T>, i: nat)
    requires i < |xs|
    ensures xs[..i + 1] == xs[..i] + [xs[i]]
  {
  }

  /** The compile command of one source. */
  function CompileInvocation(p: Project, obj: Path, file: Path): Invocation {
    Invocation(Driver(p), CompileArgs(OptionsOf(p), obj, file))
  }

  /** Compiling source `f` succeeds (the object path exists). */
  predicate CompiledOk(p: Project, objDir: Path, projectDir: Path, exec: Exec, f: Path) {
    && ObjectPath(objDir, projectDir, f).Some?
    && RunStep(exec, Step(ErrStderr, CompileInvocation(p, ObjectPath(objDir, projectDir, f).value, f))).Ok?
  }

  /** Source `f` gets through the loop: it has an object path and, when it
      is dirty, it compiles and has a hash to record. */
  predicate Passes(p: Project, objDir: Path, projectDir: Path, exec: Exec, hash: Digest, clean: set<string>, f: Path) {
    && ObjectPath(objDir, projectDir, f).Some?
    && (Dirty(hash, clean, f) ==> CompiledOk(p, objDir, projectDir, exec, f) && hash(f).Some?)
  }

  predicate AllPass(p: Project, objDir: Path, projectDir: Path, exec: Exec, hash: Digest, clean: set<string>, files: seq<Path>) {
    forall i :: 0 <= i < |files| ==> Passes(p, objDir, projectDir, exec, hash, clean, files[i])
  }

  /** Source `i` is the first one that does not pass. */
  predicate FailsFirstAt(p: Project, objDir: Path, projectDir: Path, exec: Exec, hash: Digest, clean: set<string>,
                         files: seq<Path>, i: nat) {
    && i < |files|
    && !Passes(p, objDir, projectDir, exec, hash, clean, files[i])
    && forall j :: 0 <= j < i ==> Passes(p, objDir, projectDir, exec, hash, clean, files[j])
  }

  /** The rendered object files of sources that all have one. */
  function Objects(objDir: Path, projectDir: Path, files: seq<Path>): (r: seq<string>)
    requires forall i :: 0 <= i < |files| ==> ObjectPath(objDir, projectDir, files[i]).Some?
    ensures |r| == |files|
    ensures forall i :: 0 <= i < |files| ==> r[i] == Render(ObjectPath(objDir, projectDir, files[i]).value)
  {
    seq(|files|, i requires 0 <= i < |files| => Render(ObjectPath(objDir, projectDir, files[i]).value))
  }

  /** What happens to one source inside the loop: it stops the step (and
      whether the compiler was started for it), or the step continues with
      its object file, noting whether it was compiled. */
  datatype Visit = Stop(error: Error, attempted: bool) | Continue(obj: string, compiledIt: bool)

  function VisitFile(p: Project, objDir: Path, projectDir: Path, exec: Exec, hash: Digest,
                     clean: set<string>, f: Path): (v: Visit)
    ensures v.Continue? <==> Passes(p, objDir, projectDir, exec, hash, clean, f)
    ensures v.Continue? ==> v.obj == Render(ObjectPath(objDir, projectDir, f).value)
                            && (v.compiledIt <==> Dirty(hash, clean, f))
    ensures v.Stop? ==> (v.attempted <==> ObjectPath(objDir, projectDir, f).Some?)
    ensures v.Stop? && v.attempted ==> Dirty(hash, clean, f)
  {
    match ObjectPath(objDir, projectDir, f)
    case None => Stop(Panic("diff_paths(...).unwrap() on a source with no relative path"), false)
    case Some(obj) =>
      if !Dirty(hash, clean, f) then Continue(Render(obj), false)
      else
        match RunStep(exec, Step(ErrStderr, CompileInvocation(p, obj, f)))
        case Err(e) => Stop(e, true)
        case Ok(_) =>
          if hash(f).None? then Stop(Panic("hashes[&file] on a source whose hash could not be computed"), true)
          else Continue(Render(obj), true)
  }

  /** The one-source step of `VisitFile` with everything but the source
      fixed. */
  function VisitEach(p: Project, objDir: Path, projectDir: Path, exec: Exec, hash: Digest,
                     clean: set<string>): Path -> Visit {
    f => VisitFile(p, objDir, projectDir, exec, hash, clean, f)
  }

  /** A per-source step that compiles exactly the dirty sources and only
      goes on past a compiled source whose hash is known. */
  ghost predicate FollowsCleanSet(visit: Path -> Visit, hash: Digest, clean: set<string>) {
    forall f ::
      && (visit(f).Continue? ==> (visit(f).compiledIt <==> Dirty(hash, clean, f)))
      && (visit(f).Continue? && visit(f).compiledIt ==> hash(f).Some?)
      && (visit(f).Stop? && visit(f).attempted ==> Dirty(hash, clean, f))
  }

  predicate AllContinue(visit: Path -> Visit, files: seq<Path>) {
    forall i :: 0 <= i < |files| ==> visit(files[i]).Continue?
  }

  /** The objects the steps of sources that all go on produce. */
  function VisitObjects(visit: Path -> Visit, files: seq<Path>): (r: seq<string>)
    requires AllContinue(visit, files)
    ensures |r| == |files|
    ensures forall i :: 0 <= i < |files| ==> r[i] == visit(files[i]).obj
  {
    seq(|files|, i requires 0 <= i < |files| => visit(files[i]).obj)
  }

  /** A source that goes on extends the loop's record by itself: the
      source and its hash are noted when it was compiled. */
  lemma ContinueExtends(visit: Path -> Visit, files: seq<Path>, i: nat, hash: Digest, clean: set<string>)
    requires FollowsCleanSet(visit, hash, clean)
    requires i < |files| && visit(files[i]).Continue?
    ensures && DirtyFiles(files[..i + 1], hash, clean)
               == DirtyFiles(files[..i], hash, clean) + (if visit(files[i]).compiledIt then [files[i]] else [])
            && DirtyHashes(files[..i + 1], hash, clean)
               == DirtyHashes(files[..i], hash, clean)
                  + (if visit(files[i]).compiledIt then {hash(files[i]).value} else {})
  {
    TakeOneMore(files, i);
    assert files[..i + 1][..i] == files[..i];
  }

  /** A source that stops the loop means not all sources go on, and the
      sources compiled so far, with it when the compiler was started for
      it, are still a prefix of the dirty ones. */
  lemma StopEndsLoop(visit: Path -> Visit, files: seq<Path>, i: nat, hash: Digest, clean: set<string>)
    requires FollowsCleanSet(visit, hash, clean)
    requires i < |files| && visit(files[i]).Stop?
    ensures !AllContinue(visit, files)
    ensures visit(files[i]).attempted ==>
              DirtyFiles(files[..i], hash, clean) + [files[i]] <= DirtyFiles(files, hash, clean)
    ensures DirtyFiles(files[..i], hash, clean) <= DirtyFiles(files, hash, clean)
  {
    TakeOneMore(files, i);
    assert files[..i + 1][..i] == files[..i];
    DirtyFilesPrefix(files, i, hash, clean);
    DirtyFilesPrefix(files, i + 1, hash, clean);
  }

  /** What the loop of `compile_step` has done after the first `i`
      sources: they all went on, their objects are collected in order, the
      dirty ones among them were compiled, and their hashes are added to the
      hashes of the clean sources. */
  ghost predicate LoopRecord(visit: Path -> Visit, files: seq<Path>, hash: Digest, clean: set<string>,
                             known: set<string>, i: nat, objects: seq<string>, compiled: seq<Path>,
                             cache: set<string>)
    requires i <= |files|
  {
    && (forall j :: 0 <= j < i ==> visit(files[j]).Continue?)
    && |objects| == i && (forall j :: 0 <= j < i ==> objects[j] == visit(files[j]).obj)
    && compiled == DirtyFiles(files[..i], hash, clean)
    && cache == known + DirtyHashes(files[..i], hash, clean)
  }

  /** One more source that goes on extends the record by itself. */
  lemma ContinueRecorded(visit: Path -> Visit, files: seq<Path>, hash: Digest, clean: set<string>,
                         known: set<string>, i: nat, objects: seq<string>, compiled: seq<Path>,
                         cache: set<string>)
    requires FollowsCleanSet(visit, hash, clean)
    requires i < |files| && visit(files[i]).Continue?
    requires LoopRecord(visit, files, hash, clean, known, i, objects, compiled, cache)
    ensures var v := visit(files[i]);
            LoopRecord(visit, files, hash, clean, known, i + 1, objects + [v.obj],
                       compiled + (if v.compiledIt then [files[i]] else []),
                       cache + (if v.compiledIt then {hash(files[i]).value} else {}))
  {
    ContinueExtends(visit, files, i, hash, clean);
    var v := visit(files[i]);
    assert forall j :: 0 <= j < i ==> (objects + [v.obj])[j] == objects[j];
  }

  /** The loop of `compile_step`, given the stored clean-set and the step
      for one source: the objects of all sources and the clean-set to write
      back, or the first failure, with the sources compiled on the way. */
  method CompileLoop(files: seq<Path>, hash: Digest, clean: set<string>, visit: Path -> Visit)
    returns (r: Result<(seq<string>, set<string>), Error>, compiled: seq<Path>)
    requires FollowsCleanSet(visit, hash, clean)
    ensures compiled <= DirtyFiles(files, hash, clean)
    ensures r.Ok? <==> AllContinue(visit, files)
    ensures r.Err? ==> exists i :: 0 <= i < |files| && visit(files[i]).Stop? && visit(files[i]).error == r.error
                                  && forall j :: 0 <= j < i ==> visit(files[j]).Continue?
    ensures r.Ok? ==>
              && r.value.0 == VisitObjects(visit, files)
              && r.value.1 == AllHashes(files, hash)
              && compiled == DirtyFiles(files, hash, clean)
  {
    compiled := [];
    var known := CleanHashes(files, hash, clean);
    var cache := known;
    var objects: seq<string> := [];
    var i := 0;
    while i < |files|
      invariant i <= |files|
      invariant LoopRecord(visit, files, hash, clean, known, i, objects, compiled, cache)
    {
      var v := visit(files[i]);
      if v.Stop? {
        StopEndsLoop(visit, files, i, hash, clean);
        return Err(v.error), compiled + (if v.attempted then [files[i]] else []);
      }
      ContinueRecorded(visit, files, hash, clean, known, i, objects, compiled, cache);
      objects := objects + [v.obj];
      compiled := compiled + (if v.compiledIt then [files[i]] else []);
      cache := cache + (if v.compiledIt then {hash(files[i]).value} else {});
      i := i + 1;
    }
    assert files[..i] == files;
    CleanAndDirtyAreAll(files, hash, clean);
    r := Ok((objects, cache));
  }

  /** `VisitFile` follows the clean-set, and its sources all go on exactly
      when they all pass, with their object files. */
  lemma VisitFileAgrees(p: Project, files: seq<Path>, objDir: Path, projectDir: Path,
                        hash: Digest, exec: Exec, clean: set<string>)
    ensures FollowsCleanSet(VisitEach(p, objDir, projectDir, exec, hash, clean), hash, clean)
    ensures AllContinue(VisitEach(p, objDir, projectDir, exec, hash, clean), files)
            <==> AllPass(p, objDir, projectDir, exec, hash, clean, files)
    ensures AllPass(p, objDir, projectDir, exec, hash, clean, files) ==>
              VisitObjects(VisitEach(p, objDir, projectDir, exec, hash, clean), files)
              == Objects(objDir, projectDir, files)
  {
  }

  /** `compile_step`. On success the result lists the object file of every
      source, in order, whether it was compiled or not; exactly the dirty
      sources were compiled, in order; and the clean-set written back is the
      hash of every listed source, so hashes of sources no longer listed are
      dropped. Any failure leaves the cache directory as it was, and only
      dirty sources are ever compiled. */
  method CompileStep(p: Project, files: seq<Path>, objDir: Path, projectDir: Path,
                     hash: Digest, exec: Exec, d: Dir)
    returns (r: Result<seq<string>, Error>, d': Dir, compiled: seq<Path>)
    ensures ReadSet(d, CacheKey).Err? ==> r == Err(IoError) && compiled == []
    ensures r.Err? ==> d' == d
    ensures ReadSet(d, CacheKey).Ok? ==> compiled <= DirtyFiles(files, hash, ReadSet(d, CacheKey).value)
    ensures r.Ok? <==>
              && ReadSet(d, CacheKey).Ok?
              && AllPass(p, objDir, projectDir, exec, hash, ReadSet(d, CacheKey).value, files)
              && WriteSet(d, CacheKey, AllHashes(files, hash)).Ok?
    ensures ReadSet(d, CacheKey).Ok? && r.Err? ==>
              exists i: nat :: FailsFirstAt(p, objDir, projectDir, exec, hash, ReadSet(d, CacheKey).value, files, i)
                          && r.error == VisitFile(p, objDir, projectDir, exec, hash, ReadSet(d, CacheKey).value, files[i]).error
    ensures r.Ok? ==>
              && r.value == Objects(objDir, projectDir, files)
              && compiled == DirtyFiles(files, hash, ReadSet(d, CacheKey).value)
              && d' == WriteSet(d, CacheKey, AllHashes(files, hash)).value
  {
    d' := d;
    compiled := [];
    var stored := ReadSet(d, CacheKey);
    if stored.Err? {
      return Err(stored.error), d', compiled;
    }
    VisitFileAgrees(p, files, objDir, projectDir, hash, exec, stored.value);
    var looped;
    looped, compiled := CompileLoop(files, hash, stored.value, VisitEach(p, objDir, projectDir, exec, hash, stored.value));
    if looped.Err? {
      return Err(looped.error), d', compiled;
    }
    var written := WriteSet(d, CacheKey, looped.value.1);
    // a name that could be read as a set is never a directory, so the write succeeds
    assert written.Ok?;
    d' := written.value;
    r := Ok(looped.value.0);
  }

  /** After a successful step, running it again on unchanged sources that
      all hash compiles nothing. */
  lemma SecondRunIsClean(files: seq<Path>, hash: Digest)
    requires forall f :: f in files ==> hash(f).Some?
    ensures DirtyFiles(files, hash, AllHashes(files, hash)) == []
  {
    NothingDirty(files, hash, AllHashes(files, hash));
  }

  lemma {:induction false} NothingDirty(files: seq<Path>, hash: Digest, clean: set<string>)
    requires forall f :: f in files ==> !Dirty(hash, clean, f)
    ensures DirtyFiles(files, hash, clean) == []
  {
    if |files| > 0 {
      assert files[|files| - 1] in files;
      NothingDirty(files[..|files| - 1], hash, clean);
    }
  }

  /** `resource_step` for one resource script: windres with "-v", the
      script, "-OCOFF", the include paths and defines, and the COFF object
      last. The object joins the link list only after windres succeeds. */
  function ResourceArgs(o: Options, file: Path, coff: Path): (r: seq<string>)
    ensures |r| == 4 + |o.includePaths| + |o.defines|
    ensures r[0] == "-v" && r[1] == Render(file) && r[2] == "-OCOFF"
    ensures forall i :: 0 <= i < |o.includePaths| ==> r[3 + i] == "-I" + o.includePaths[i]
    ensures forall i :: 0 <= i < |o.defines| ==> r[3 + |o.includePaths| + i] == "-D" + o.defines[i]
    ensures r[|r| - 1] == "-o" + Render(coff)
  {
    ["-v", Render(file), "-OCOFF"] + Prefixed("-I", o.includePaths) + Prefixed("-D", o.defines)
      + ["-o" + Render(coff)]
  }

  function ResourceOne(p: Project, resDir: Path, projectDir: Path, exec: Exec, file: Path): (r: Result<string, Error>)
    ensures ObjectPath(resDir, projectDir, file).None? ==> r.Err? && r.error.Panic?
    ensures ObjectPath(resDir, projectDir, file).Some? ==>
              var coff := ObjectPath(resDir, projectDir, file).value;
              var run := RunStep(exec, Step(ErrStderr, Invocation(ToolPrefix(p) + "windres", ResourceArgs(OptionsOf(p), file, coff))));
              && (r.Ok? <==> run.Ok?)
              && (r.Ok? ==> r.value == Render(coff))
              && (r.Err? ==> r.error == run.error)
  {
    match ObjectPath(resDir, projectDir, file)
    case None => Err(Panic("diff_paths(...).unwrap() on a resource with no relative path"))
    case Some(coff) =>
      var _ :- RunStep(exec, Step(ErrStderr, Invocation(ToolPrefix(p) + "windres", ResourceArgs(OptionsOf(p), file, coff))));
      Ok(Render(coff))
  }

  function ResourceEach(p: Project, resDir: Path, projectDir: Path, exec: Exec): Path -> Result<string, Error> {
    file => ResourceOne(p, resDir, projectDir, exec, file)
  }

  /** `resource_step`: the COFF objects of all resource scripts, in order,
      or the first failure. */
  function ResourceStep(p: Project, resDir: Path, projectDir: Path, exec: Exec, files: seq<Path>): (r: Result<seq<string>, Error>)
    ensures r.Ok? <==> forall i :: 0 <= i < |files| ==> ResourceOne(p, resDir, projectDir, exec, files[i]).Ok?
    ensures r.Ok? ==> |r.value| == |files| && forall i :: 0 <= i < |files| ==>
              r.value[i] == Render(ObjectPath(resDir, projectDir, files[i]).value)
  {
    FailFast.Traverse(files, ResourceEach(p, resDir, projectDir, exec))
  }

  /** The objects as the linker sees them: each made relative to the
      project directory; one with no relative path is silently dropped. */
  function RelativeObjects(objects: seq<string>, projectDir: Path): (r: seq<string>)
    ensures |r| <= |objects|
    ensures (forall i :: 0 <= i < |objects| ==> DiffPaths(Parse(objects[i]), projectDir).Some?) ==>
              |r| == |objects| && forall i :: 0 <= i < |objects| ==>
                r[i] == Render(DiffPaths(Parse(objects[i]), projectDir).value)
  {
    if |objects| == 0 then []
    else
      var rest := RelativeObjects(objects[1..], projectDir);
      assert forall i :: 1 <= i < |objects| ==> objects[1..][i - 1] == objects[i];
      match DiffPaths(Parse(objects[0]), projectDir)
      case None => rest
      case Some(rel) => [Render(rel)] + rest
  }

  /** With a canonical project directory (no ".." in it) and objects on the
      same root, no object is dropped. */
  lemma NoObjectDropped(objects: seq<string>, projectDir: Path)
    requires forall i :: 0 <= i < |projectDir.comps| ==> projectDir.comps[i] != ParentDir
    requires forall i :: 0 <= i < |objects| ==> Parse(objects[i]).absolute || !projectDir.absolute
    ensures |RelativeObjects(objects, projectDir)| == |objects|
  {
    forall i | 0 <= i < |objects|
      ensures DiffPaths(Parse(objects[i]), projectDir).Some?
    {
      DiffPathsTotal(Parse(objects[i]), projectDir);
    }
  }

  /** The link command: `ar` for a static library, the compiler driver
      otherwise, over the objects made relative to the project directory
      and the module definition files. */
  function LinkInvocation(p: Project, objects: seq<string>, defs: seq<Path>, outDir: Path,
                          projectDir: Path, output: string): (r: Invocation)
    ensures p.projectType == StaticLibrary ==>
              r == Invocation(ToolPrefix(p) + "ar", ArArgs(RelativeObjects(objects, projectDir), Rendered(defs), outDir, output))
    ensures p.projectType != StaticLibrary ==>
              r == Invocation(Driver(p), GccLinkArgs(OptionsOf(p), RelativeObjects(objects, projectDir), Rendered(defs), outDir, output))
  {
    var rel := RelativeObjects(objects, projectDir);
    if p.projectType == StaticLibrary then Invocation(ToolPrefix(p) + "ar", ArArgs(rel, Rendered(defs), outDir, output))
    else Invocation(Driver(p), GccLinkArgs(OptionsOf(p), rel, Rendered(defs), outDir, output))
  }


  /** The build directories and tool prefix of `build`. */
  datatype Layout = Layout(objDir: Path, outDir: Path, resDir: Path)

  function LayoutOf(p: Project, env: Env): Layout {
    Layout(BuildDir(env.numakeDir, "obj", p.name), BuildDir(env.numakeDir, "out", p.name),
           BuildDir(env.numakeDir, "res", p.name))
  }

  /** `build`: compile (incrementally), compile resources, link, copy the
      assets (relative to the project directory); the first failure ends
      the build with its error (an unreadable build cache, the first source
      that does not pass, the resource step, the link) and nothing after
      it runs. The object list handed to the link is the compiled objects
      followed by the resource objects. The build succeeds exactly when
      every one of these steps and the asset copy succeed. */
  method Build(p: Project, env: Env, hash: Digest, exec: Exec, canon: Path -> Option<Path>, d: Dir,
               code: seq<Path>, resources: seq<Path>, defs: seq<Path>, assets: seq<(string, string)>)
    returns (r: Result<seq<Copy>, Error>, d': Dir, linked: Option<Invocation>)
    requires IsEnumeration(code, Bucket(p.sourceFiles, Code))
    requires IsEnumeration(resources, Bucket(p.sourceFiles, Resource))
    requires IsEnumeration(defs, Bucket(p.sourceFiles, ModuleDefinition))
    requires IsEnumeration(assets, p.assetFiles.Items)
    ensures linked.None? ==> r.Err?
    ensures r.Ok? ==> CopyAssets(p, env.projectDir, LayoutOf(p, env).outDir, canon, assets) == r
    ensures linked.Some? ==>
              && ReadSet(d, CacheKey).Ok?
              && AllPass(p, LayoutOf(p, env).objDir, env.projectDir, exec, hash, ReadSet(d, CacheKey).value, code)
              && d' == WriteSet(d, CacheKey, AllHashes(code, hash)).value
              && ResourceStep(p, LayoutOf(p, env).resDir, env.projectDir, exec, resources).Ok?
              && linked.value == LinkInvocation(p, Objects(LayoutOf(p, env).objDir, env.projectDir, code)
                                                   + ResourceStep(p, LayoutOf(p, env).resDir, env.projectDir, exec, resources).value,
                                                 defs, LayoutOf(p, env).outDir, env.projectDir, OutputName(p))
    ensures r.Ok? ==> linked.Some? && RunStep(exec, Step(ErrStderr, linked.value)).Ok?
    ensures ReadSet(d, CacheKey).Err? ==> r == Err(IoError)
    ensures ReadSet(d, CacheKey).Ok? && !AllPass(p, LayoutOf(p, env).objDir, env.projectDir, exec, hash, ReadSet(d, CacheKey).value, code) ==>
              exists i: nat :: FailsFirstAt(p, LayoutOf(p, env).objDir, env.projectDir, exec, hash, ReadSet(d, CacheKey).value, code, i)
                               && r == Err(VisitFile(p, LayoutOf(p, env).objDir, env.projectDir, exec, hash, ReadSet(d, CacheKey).value, code[i]).error)
    ensures ReadSet(d, CacheKey).Ok? && AllPass(p, LayoutOf(p, env).objDir, env.projectDir, exec, hash, ReadSet(d, CacheKey).value, code) ==>
              var res := ResourceStep(p, LayoutOf(p, env).resDir, env.projectDir, exec, resources);
              && (res.Err? ==> r == Err(res.error))
              && (res.Ok? ==>
                    var link := LinkInvocation(p, Objects(LayoutOf(p, env).objDir, env.projectDir, code) + res.value,
                                               defs, LayoutOf(p, env).outDir, env.projectDir, OutputName(p));
                    var run := RunStep(exec, Step(ErrStderr, link));
                    && (run.Err? ==> r == Err(run.error))
                    && (run.Ok? ==> r == CopyAssets(p, env.projectDir, LayoutOf(p, env).outDir, canon, assets)))
    ensures r.Ok? <==>
              && ReadSet(d, CacheKey).Ok?
              && AllPass(p, LayoutOf(p, env).objDir, env.projectDir, exec, hash, ReadSet(d, CacheKey).value, code)
              && var res := ResourceStep(p, LayoutOf(p, env).resDir, env.projectDir, exec, resources);
                 && res.Ok?
                 && RunStep(exec, Step(ErrStderr, LinkInvocation(p, Objects(LayoutOf(p, env).objDir, env.projectDir, code) + res.value,
                                                                 defs, LayoutOf(p, env).outDir, env.projectDir, OutputName(p)))).Ok?
                 && CopyAssets(p, env.projectDir, LayoutOf(p, env).outDir, canon, assets).Ok?
  {
    var layout := LayoutOf(p, env);
    linked := None;
    var compiledObjects, compiled;
    compiledObjects, d', compiled := CompileStep(p, code, layout.objDir, env.projectDir, hash, exec, d);
    if compiledObjects.Err? {
      return Err(compiledObjects.error), d', linked;
    }
    var resourceObjects := ResourceStep(p, layout.resDir, env.projectDir, exec, resources);
    if resourceObjects.Err? {
      return Err(resourceObjects.error), d', linked;
    }
    var objects := compiledObjects.value + resourceObjects.value;
    var link := LinkInvocation(p, objects, defs, layout.outDir, env.projectDir, OutputName(p));
    linked := Some(link);
    var run := RunStep(exec, Step(ErrStderr, link));
    if run.Err? {
      return Err(run.error), d', linked;
    }
    r := CopyAssets(p, env.projectDir, layout.outDir, canon, assets);
  }
}
