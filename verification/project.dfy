/** The newest revision's project description (`Project`), filled in by
    the build script and read by the compiler back-ends. */
module ProjectData {
  import opened Wrappers
  import opened Errors
  import opened Paths
  import opened SourceFiles
  import opened Assets
  import FailFast

  datatype Language = C | CPP
  datatype ProjectType = Executable | StaticLibrary | DynamicLibrary
  datatype FlagType = Compiler | Linker | RC | Windres

  /** A script argument that is either one string or a list of them. */
  datatype OneOrMany = One(item: string) | Many(items: seq<string>)

  function Items(v: OneOrMany): seq<string> {
    match v
    case One(s) => [s]
    case Many(xs) => xs
  }

  datatype Project = Project(
    name: string,
    language: Language,
    output: Option<string>,
    sourceFiles: Collection,
    assetFiles: map<string, string>,
    includePaths: seq<string>,
    libPaths: seq<string>,
    libs: seq<string>,
    defines: seq<string>,
    flags: seq<(FlagType, string)>,
    arch: Option<string>,
    projectType: ProjectType)

  /** `Project::default()`: every list empty, C, an executable, and a
      source collection without buckets. */
  function DefaultProject(): (p: Project)
    ensures p.sourceFiles.files == map[] && p.flags == [] && p.assetFiles == map[]
    ensures p.language == C && p.projectType == Executable && p.output == None && p.arch == None
  {
    Project("", C, None, Collection(map[]), map[], [], [], [], [], [], None, Executable)
  }

  /** `add_file`: a regular file goes into the source collection (there is
      no working-directory check in this revision); anything else is
      refused and the project is unchanged. */
  function AddFile(p: Project, file: Path, isFile: Path -> bool): (r: Result<Project, Error>)
    ensures r.Ok? <==> isFile(file)
    ensures r.Err? ==> r.error == AddFileIsDirectory
    ensures r.Ok? ==> r.value.(sourceFiles := p.sourceFiles) == p
    ensures r.Ok? ==> Bucket(r.value.sourceFiles, Classify(file)) == Bucket(p.sourceFiles, Classify(file)) + {file}
    ensures r.Ok? ==> forall t :: t != Classify(file) ==> Bucket(r.value.sourceFiles, t) == Bucket(p.sourceFiles, t)
  {
    if isFile(file) then Ok(p.(sourceFiles := Insert(p.sourceFiles, file)))
    else Err(AddFileIsDirectory)
  }

  /** A file added to a default project (whose collection has no buckets
      yet) is found under its own type afterwards. */
  lemma AddFileToDefault(file: Path, isFile: Path -> bool)
    requires isFile(file)
    ensures AddFile(DefaultProject(), file, isFile).Ok?
    ensures var q := AddFile(DefaultProject(), file, isFile).value;
            Classify(file) in q.sourceFiles.files && file in Bucket(q.sourceFiles, Classify(file))
  {
  }

  /** The script's `file` method: every path given is canonicalised and
      inserted into the source collection, in order, with no check that
      it is a regular file. A path that cannot be canonicalised is an I/O
      error that ends the loop; the paths inserted before it stay. */
  function AddSources(c: Collection, paths: seq<string>, canon: Path -> Option<Path>): (r: (Collection, Option<Error>))
    ensures r.1.Some? <==> exists i :: 0 <= i < |paths| && canon(Parse(paths[i])).None?
    ensures r.1.Some? ==> r.1.value == IoError
    ensures forall t :: Bucket(c, t) <= Bucket(r.0, t)
    ensures forall t, f :: f in Bucket(r.0, t) ==>
              f in Bucket(c, t) || exists i :: 0 <= i < |paths| && canon(Parse(paths[i])) == Some(f)
    ensures r.1.None? ==> forall i :: 0 <= i < |paths| ==>
              canon(Parse(paths[i])).value in Bucket(r.0, Classify(canon(Parse(paths[i])).value))
    decreases |paths|
  {
    if |paths| == 0 then (c, None)
    else match canon(Parse(paths[0]))
      case None => (c, Some(IoError))
      case Some(file) =>
        var rest := AddSources(Insert(c, file), paths[1..], canon);
        assert forall i :: 1 <= i < |paths| ==> paths[i] == paths[1..][i - 1];
        rest
  }

  /** `file` with one path or a list of them. */
  function FileMethod(p: Project, v: OneOrMany, canon: Path -> Option<Path>): (r: Result<Project, Error>)
    ensures r.Ok? <==> forall i :: 0 <= i < |Items(v)| ==> canon(Parse(Items(v)[i])).Some?
    ensures r.Ok? ==> r.value.(sourceFiles := p.sourceFiles) == p
    ensures r.Ok? ==> forall i :: 0 <= i < |Items(v)| ==>
              canon(Parse(Items(v)[i])).value in Bucket(r.value.sourceFiles, Classify(canon(Parse(Items(v)[i])).value))
    ensures r.Err? ==> r.error == IoError
  {
    var added := AddSources(p.sourceFiles, Items(v), canon);
    if added.1.Some? then Err(added.1.value) else Ok(p.(sourceFiles := added.0))
  }

  /** The flag strings of one type, in the order they were added. */
  function FilterFlags(flags: seq<(FlagType, string)>, t: FlagType): (r: seq<string>)
    ensures forall s :: s in r <==> (t, s) in flags
    ensures |r| <= |flags|
  {
    if |flags| == 0 then []
    else (if flags[0].0 == t then [flags[0].1] else []) + FilterFlags(flags[1..], t)
  }

  /** Filtering distributes over concatenation, which is what makes it
      order-preserving. */
  lemma {:induction false} FilterFlagsAppend(a: seq<(FlagType, string)>, b: seq<(FlagType, string)>, t: FlagType)
    ensures FilterFlags(a + b, t) == FilterFlags(a, t) + FilterFlags(b, t)
  {
    if |a| > 0 {
      assert (a + b)[0] == a[0];
      assert (a + b)[1..] == a[1..] + b;
      FilterFlagsAppend(a[1..], b, t);
    } else {
      assert a + b == b;
    }
  }

  /** `get_flags`. */
  function GetFlags(p: Project, t: FlagType): seq<string> {
    FilterFlags(p.flags, t)
  }

  /** The newest back-ends read `project.compiler_flags` and
      `project.linker_flags`, which this `Project` does not declare; they
      are taken to be the flags of the matching type. */
  function CompilerFlags(p: Project): seq<string> {
    GetFlags(p, Compiler)
  }

  function LinkerFlags(p: Project): seq<string> {
    GetFlags(p, Linker)
  }

  /** Pair every string with one flag type. */
  function Tagged(t: FlagType, xs: seq<string>): (r: seq<(FlagType, string)>)
    ensures |r| == |xs| && forall i :: 0 <= i < |xs| ==> r[i] == (t, xs[i])
  {
    seq(|xs|, i requires 0 <= i < |xs| => (t, xs[i]))
  }

  lemma {:induction false} FilterTagged(t: FlagType, u: FlagType, xs: seq<string>)
    ensures FilterFlags(Tagged(t, xs), u) == if t == u then xs else []
  {
    if |xs| > 0 {
      assert Tagged(t, xs)[1..] == Tagged(t, xs[1..]);
      FilterTagged(t, u, xs[1..]);
      assert [xs[0]] + xs[1..] == xs;
    }
  }

  /** `flag(t, value)`: the strings are appended in order under type `t`;
      the flags of every other type, and every other field, are unchanged. */
  function Flag(p: Project, t: FlagType, v: OneOrMany): (r: Project)
    ensures GetFlags(r, t) == GetFlags(p, t) + Items(v)
    ensures forall u :: u != t ==> GetFlags(r, u) == GetFlags(p, u)
    ensures r.(flags := p.flags) == p
  {
    var r := p.(flags := p.flags + Tagged(t, Items(v)));
    assert forall u :: GetFlags(r, u) == GetFlags(p, u) + (if t == u then Items(v) else []) by {
      forall u ensures GetFlags(r, u) == GetFlags(p, u) + (if t == u then Items(v) else []) {
        FilterFlagsAppend(p.flags, Tagged(t, Items(v)), u);
        FilterTagged(t, u, Items(v));
      }
    }
    r
  }

  /** `include`: the strings are appended to the include paths, in order. */
  function Include(p: Project, v: OneOrMany): (r: Project)
    ensures |r.includePaths| == |p.includePaths| + |Items(v)|
    ensures r.includePaths[..|p.includePaths|] == p.includePaths
    ensures r.includePaths[|p.includePaths|..] == Items(v)
    ensures r.(includePaths := p.includePaths) == p
  {
    p.(includePaths := p.includePaths + Items(v))
  }

  /** `lib`: the strings are appended to the libraries, in order. */
  function Lib(p: Project, v: OneOrMany): (r: Project)
    ensures |r.libs| == |p.libs| + |Items(v)|
    ensures r.libs[..|p.libs|] == p.libs && r.libs[|p.libs|..] == Items(v)
    ensures r.(libs := p.libs) == p
  {
    p.(libs := p.libs + Items(v))
  }

  /** `lib_path`: the strings are appended to the library paths, in order. */
  function LibPath(p: Project, v: OneOrMany): (r: Project)
    ensures |r.libPaths| == |p.libPaths| + |Items(v)|
    ensures r.libPaths[..|p.libPaths|] == p.libPaths && r.libPaths[|p.libPaths|..] == Items(v)
    ensures r.(libPaths := p.libPaths) == p
  {
    p.(libPaths := p.libPaths + Items(v))
  }

  /** `define`: the strings are appended to the defines, in order. */
  function Define(p: Project, v: OneOrMany): (r: Project)
    ensures |r.defines| == |p.defines| + |Items(v)|
    ensures r.defines[..|p.defines|] == p.defines && r.defines[|p.defines|..] == Items(v)
    ensures r.(defines := p.defines) == p
  {
    p.(defines := p.defines + Items(v))
  }

  /** `output`, `arch` and `type`: each sets its own field only. */
  function SetOutput(p: Project, s: string): (r: Project)
    ensures r.output == Some(s) && r.(output := p.output) == p
  {
    p.(output := Some(s))
  }

  function SetArch(p: Project, s: string): (r: Project)
    ensures r.arch == Some(s) && r.(arch := p.arch) == p
  {
    p.(arch := Some(s))
  }

  function SetType(p: Project, t: ProjectType): (r: Project)
    ensures r.projectType == t && r.(projectType := p.projectType) == p
  {
    p.(projectType := t)
  }

  /** One asset of `copy_assets`: canonicalise the source under the
      working directory (failing if it does not exist), then require the
      destination to stay in the output directory. */
  function CopyOne(wd: Path, outDir: Path, canon: Path -> Option<Path>, key: string, val: string): (r: Result<Copy, Error>)
    ensures r.Ok? <==> canon(Join(wd, Parse(key))).Some? && Inside(outDir, Parse(val))
    ensures r.Ok? ==> r.value == Copy(canon(Join(wd, Parse(key))).value, Join(outDir, Parse(val)))
    ensures canon(Join(wd, Parse(key))).None? ==> r == Err(IoError)
    ensures canon(Join(wd, Parse(key))).Some? && !Inside(outDir, Parse(val)) ==>
              r == Err(AssetCopyPathOutsideWorkingDirectory)
  {
    match canon(Join(wd, Parse(key)))
    case None => Err(IoError)
    case Some(original) =>
      var copyPath := Join(outDir, Parse(val));
      if !StartsWith(copyPath, outDir) then Err(AssetCopyPathOutsideWorkingDirectory)
      else Ok(Copy(original, copyPath))
  }

  function Copier(wd: Path, outDir: Path, canon: Path -> Option<Path>): ((string, string)) -> Result<Copy, Error> {
    (kv: (string, string)) => CopyOne(wd, outDir, canon, kv.0, kv.1)
  }

  /** `copy_assets`: the copies performed, in iteration order, or the first
      failure. It succeeds exactly when every source exists and no
      destination leaves the output directory; a relative destination
      never leaves it, whatever `..` it contains. */
  function CopyAssets(p: Project, wd: Path, outDir: Path, canon: Path -> Option<Path>,
                      order: seq<(string, string)>): (r: Result<seq<Copy>, Error>)
    requires IsEnumeration(order, p.assetFiles.Items)
    ensures r.Ok? <==> forall key :: key in p.assetFiles ==>
              canon(Join(wd, Parse(key))).Some? && Inside(outDir, Parse(p.assetFiles[key]))
    ensures r.Ok? ==> |r.value| == |order| && forall i :: 0 <= i < |order| ==>
              && canon(Join(wd, Parse(order[i].0))).Some?
              && r.value[i] == Copy(canon(Join(wd, Parse(order[i].0))).value, Join(outDir, Parse(order[i].1)))
    ensures r.Err? ==> r.error in {IoError, AssetCopyPathOutsideWorkingDirectory}
  {
    EnumeratedMap(order, p.assetFiles);
    FailFast.Traverse(order, Copier(wd, outDir, canon))
  }

  /** Whether copying succeeds does not depend on the iteration order of
      the asset map. */
  lemma CopyAssetsOrderIrrelevant(p: Project, wd: Path, outDir: Path, canon: Path -> Option<Path>,
                                  a: seq<(string, string)>, b: seq<(string, string)>)
    requires IsEnumeration(a, p.assetFiles.Items) && IsEnumeration(b, p.assetFiles.Items)
    ensures CopyAssets(p, wd, outDir, canon, a).Ok? <==> CopyAssets(p, wd, outDir, canon, b).Ok?
  {
    EnumerationsArePermutations(a, b, p.assetFiles.Items);
    FailFast.TraverseOrderIrrelevant(a, b, Copier(wd, outDir, canon));
  }
}
