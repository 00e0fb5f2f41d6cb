/** What the newest revision's back-ends (the files under `src/lib/compilers`) have in
    common: where an object file goes, how a GCC-style compile command is
    laid out, and the build directories under the numake directory. */
module Toolchain {
  import opened Wrappers
  import opened Paths
  import opened ProjectData

  /** `Environment`: where numake keeps its files, and the project root
      that tools run in and that source paths are made relative to. */
  datatype Env = Env(numakeDir: Path, projectDir: Path)

  /** Every string with the same prefix in front (`format!("-I{x}")`). */
  function Prefixed(pre: string, xs: seq<string>): (r: seq<string>)
    ensures |r| == |xs|
    ensures forall i :: 0 <= i < |xs| ==> r[i] == pre + xs[i] && r[i][|pre|..] == xs[i]
  {
    seq(|xs|, i requires 0 <= i < |xs| => pre + xs[i])
  }

  lemma {:induction false} PrefixedAppend(pre: string, a: seq<string>, b: seq<string>)
    ensures Prefixed(pre, a + b) == Prefixed(pre, a) + Prefixed(pre, b)
  {
  }

  /** The object file of a source: the source's path relative to `base`
      (the project directory, or the numake directory for MSVC), with `ext`
      appended, under `dir`. There is none when `diff_paths` has no answer
      (the source then aborts on `unwrap`). */
  function ObjectFile(dir: Path, base: Path, file: Path, ext: string): (r: Option<Path>)
    ensures r.Some? <==> DiffPaths(file, base).Some?
    ensures StartsWith(file, base) && |file.comps| > |base.comps| ==>
              && r.Some?
              && r.value.absolute == dir.absolute
              && r.value.comps == dir.comps + file.comps[|base.comps|..|file.comps| - 1]
                                  + [file.comps[|file.comps| - 1] + ext]
  {
    if StartsWith(file, base) && |file.comps| > |base.comps| then
      ObjectFileUnder(dir, base, file, ext);
      DiffObject(dir, base, file, ext)
    else DiffObject(dir, base, file, ext)
  }

  /** The GCC-style object (or COFF) file: ".o" appended. */
  function ObjectPath(dir: Path, projectDir: Path, file: Path): Option<Path> {
    ObjectFile(dir, projectDir, file, ".o")
  }

  function DiffObject(dir: Path, base: Path, file: Path, ext: string): Option<Path> {
    match DiffPaths(file, base)
    case None => None
    case Some(rel) => Some(Join(dir, WithSuffix(rel, ext)))
  }

  lemma ObjectFileUnder(dir: Path, base: Path, file: Path, ext: string)
    requires StartsWith(file, base) && |file.comps| > |base.comps|
    ensures DiffObject(dir, base, file, ext).Some?
    ensures var o := DiffObject(dir, base, file, ext).value;
            && o.absolute == dir.absolute
            && o.comps == dir.comps + file.comps[|base.comps|..|file.comps| - 1]
                          + [file.comps[|file.comps| - 1] + ext]
  {
    DiffPathsInverse(file, base);
    var rest := file.comps[|base.comps|..];
    var w := WithSuffix(Rel(rest), ext);
    assert w.comps == rest[..|rest| - 1] + [rest[|rest| - 1] + ext];
    assert rest[..|rest| - 1] == file.comps[|base.comps|..|file.comps| - 1];
    var o := Join(dir, w);
    assert o.comps[..|dir.comps|] == dir.comps;
    assert o.comps == o.comps[..|dir.comps|] + o.comps[|dir.comps|..];
  }

  lemma SuffixCancels(a: string, b: string, ext: string)
    requires a + ext == b + ext
    ensures a == b
  {
    assert |a| == |b|;
    assert (a + ext)[..|a|] == a;
    assert (b + ext)[..|b|] == b;
  }

  /** Two different sources under the base directory never share an
      object file. */
  lemma ObjectFilesDistinct(dir: Path, base: Path, f: Path, g: Path, ext: string)
    requires StartsWith(f, base) && |f.comps| > |base.comps|
    requires StartsWith(g, base) && |g.comps| > |base.comps|
    ensures ObjectFile(dir, base, f, ext) == ObjectFile(dir, base, g, ext) ==> f == g
  {
    if ObjectFile(dir, base, f, ext) == ObjectFile(dir, base, g, ext) {
      ObjectCompsDistinct(dir.comps, base.comps, f.comps, g.comps, ext);
    }
  }

  /** The component-level core of `ObjectFilesDistinct`: the directory,
      the middle components and the suffixed last one determine the
      source's components. */
  lemma ObjectCompsDistinct(d: seq<string>, b: seq<string>, f: seq<string>, g: seq<string>, ext: string)
    requires b <= f && |f| > |b| && b <= g && |g| > |b|
    requires d + f[|b|..|f| - 1] + [f[|f| - 1] + ext] == d + g[|b|..|g| - 1] + [g[|g| - 1] + ext]
    ensures f == g
  {
    var of := d + f[|b|..|f| - 1] + [f[|f| - 1] + ext];
    var og := d + g[|b|..|g| - 1] + [g[|g| - 1] + ext];
    var n := |b|;
    var k := |d|;
    assert |f| == |g|;
    forall i | 0 <= i < |f|
      ensures f[i] == g[i]
    {
      if i < n {
        assert f[i] == b[i] == g[i];
      } else if i < |f| - 1 {
        assert of[k + i - n] == f[i];
        assert og[k + i - n] == g[i];
      } else {
        assert of[|of| - 1] == f[i] + ext;
        assert og[|og| - 1] == g[i] + ext;
        SuffixCancels(f[i], g[i], ext);
      }
    }
  }

  /** The lists a target or project contributes to command lines. */
  datatype Options = Options(
    includePaths: seq<string>,
    defines: seq<string>,
    compilerFlags: seq<string>,
    libPaths: seq<string>,
    libs: seq<string>,
    linkerFlags: seq<string>)

  /** The newest revision's project as command-line lists; its compiler and
      linker flags are the flags of those two kinds, in order. */
  function OptionsOf(p: Project): (o: Options)
    ensures o.includePaths == p.includePaths && o.defines == p.defines
    ensures o.libPaths == p.libPaths && o.libs == p.libs
    ensures o.compilerFlags == GetFlags(p, Compiler) && o.linkerFlags == GetFlags(p, Linker)
  {
    Options(p.includePaths, p.defines, CompilerFlags(p), p.libPaths, p.libs, LinkerFlags(p))
  }

  /** The GCC-style compile command of one source: "-c", the object as
      "-o<object>", every include path as "-I", every define as "-D", the
      compiler flags as given, and the source last. */
  function CompileArgs(o: Options, obj: Path, file: Path): (r: seq<string>)
    ensures |r| == 3 + |o.includePaths| + |o.defines| + |o.compilerFlags|
    ensures r[0] == "-c" && r[1] == "-o" + Render(obj) && r[|r| - 1] == Render(file)
    ensures forall i :: 0 <= i < |o.includePaths| ==> r[2 + i] == "-I" + o.includePaths[i]
    ensures forall i :: 0 <= i < |o.defines| ==> r[2 + |o.includePaths| + i] == "-D" + o.defines[i]
    ensures forall i :: 0 <= i < |o.compilerFlags| ==>
              r[2 + |o.includePaths| + |o.defines| + i] == o.compilerFlags[i]
  {
    ["-c", "-o" + Render(obj)]
      + (Prefixed("-I", o.includePaths) + Prefixed("-D", o.defines) + o.compilerFlags + [Render(file)])
  }

  /** The GCC-driver link arguments: the objects, the module definitions,
      "-L" for every library path, "-l" for every library, the compiler
      flags, every linker flag behind "-Wl,", and the output last. */
  function GccLinkArgs(o: Options, objects: seq<string>, defs: seq<string>, outDir: Path, output: string): (r: seq<string>)
    ensures |r| == |objects| + |defs| + |o.libPaths| + |o.libs| + |o.compilerFlags| + |o.linkerFlags| + 1
    ensures r[..|objects|] == objects
    ensures r[|objects|..|objects| + |defs|] == defs
    ensures forall i :: 0 <= i < |o.libPaths| ==> r[|objects| + |defs| + i] == "-L" + o.libPaths[i]
    ensures forall i :: 0 <= i < |o.libs| ==> r[|objects| + |defs| + |o.libPaths| + i] == "-l" + o.libs[i]
    ensures forall i :: 0 <= i < |o.compilerFlags| ==>
              r[|objects| + |defs| + |o.libPaths| + |o.libs| + i] == o.compilerFlags[i]
    ensures forall i :: 0 <= i < |o.linkerFlags| ==>
              r[|objects| + |defs| + |o.libPaths| + |o.libs| + |o.compilerFlags| + i] == "-Wl," + o.linkerFlags[i]
    ensures r[|r| - 1] == OutputArg(outDir, output)
  {
    objects + defs + Prefixed("-L", o.libPaths) + Prefixed("-l", o.libs) + o.compilerFlags
      + Prefixed("-Wl,", o.linkerFlags) + [OutputArg(outDir, output)]
  }

  /** The static-library archive arguments: "rcs", the archive
      `<out_dir>/<output>`, the objects and the module definitions. */
  function ArArgs(objects: seq<string>, defs: seq<string>, outDir: Path, output: string): (r: seq<string>)
    ensures |r| == 2 + |objects| + |defs|
    ensures r[0] == "rcs" && r[1] == Render(outDir) + "/" + output
    ensures r[2..2 + |objects|] == objects && r[2 + |objects|..] == defs
  {
    ["rcs", Render(outDir) + "/" + output] + objects + defs
  }

  /** `"-o{out_dir}/{output}"`. */
  function OutputArg(outDir: Path, output: string): (r: string)
    ensures |r| >= 2 && r[..2] == "-o" && r[2..] == Render(outDir) + "/" + output
  {
    "-o" + Render(outDir) + "/" + output
  }

  /** `numake_directory.join(format!("{kind}/{name}"))`. */
  function BuildDir(numakeDir: Path, kind: string, name: string): Path {
    Join(numakeDir, Parse(kind + "/" + name))
  }

  /** `project.output.unwrap_or("out")`. */
  function OutputName(p: Project): (r: string)
    ensures p.output.Some? ==> r == p.output.value
    ensures p.output.None? ==> r == "out"
  {
    p.output.GetOr("out")
  }
}
