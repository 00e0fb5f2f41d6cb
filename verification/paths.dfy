/** File-system paths as the orchestrator sees them: a root flag and a
    sequence of components. `StartsWith` is Rust's component-prefix test,
    `Join` is `Path::join` (an absolute right-hand side replaces the base,
    `..` is never resolved), `Extension` and `FileName` follow the standard
    library, and `DiffPaths` is the `pathdiff` crate's relative-path
    computation. Canonicalisation is a file-system query and is therefore
    a parameter wherever the source calls it. */
module Paths {
  import opened Wrappers
  import Strings

  datatype Path = Path(absolute: bool, comps: seq<string>)

  const ParentDir: string := ".."

  /** `path.starts_with(base)`: same root and `base`'s components are a
      prefix of `path`'s. */
  predicate StartsWith(path: Path, base: Path) {
    path.absolute == base.absolute && base.comps <= path.comps
  }

  /** `base.join(p)`. */
  function Join(base: Path, p: Path): (r: Path)
    ensures p.absolute ==> r == p
    ensures !p.absolute ==> StartsWith(r, base) && r.comps[|base.comps|..] == p.comps
  {
    if p.absolute then p else Path(base.absolute, base.comps + p.comps)
  }

  /** A relative path built from plain component names. */
  function Rel(comps: seq<string>): Path {
    Path(false, comps)
  }

  /** The sandbox fact every "destination stays inside" check relies on:
      joining `d` onto `base` stays under `base` exactly when `d` is
      relative or is itself already under `base`. A relative `../x` is
      therefore accepted, because nothing resolves the `..`. */
  lemma JoinStaysInside(base: Path, d: Path)
    ensures StartsWith(Join(base, d), base) <==> (!d.absolute || StartsWith(d, base))
  {
  }

  lemma StartsWithTransitive(a: Path, b: Path, c: Path)
    requires StartsWith(a, b) && StartsWith(b, c)
    ensures StartsWith(a, c)
  {
  }

  /** Index of the last occurrence of `c` in `s`. */
  function LastIndexOf(s: string, c: char): (r: Option<nat>)
    ensures r.Some? ==> r.value < |s| && s[r.value] == c
                        && forall j :: r.value < j < |s| ==> s[j] != c
    ensures r.None? ==> forall j :: 0 <= j < |s| ==> s[j] != c
  {
    if |s| == 0 then None
    else if s[|s| - 1] == c then Some(|s| - 1)
    else LastIndexOf(s[..|s| - 1], c)
  }

  /** `Path::file_name`: the last component unless it is `..`. */
  function FileName(p: Path): (r: Option<string>)
    ensures r.Some? <==> |p.comps| > 0 && p.comps[|p.comps| - 1] != ParentDir
    ensures r.Some? ==> r.value == p.comps[|p.comps| - 1]
  {
    if |p.comps| == 0 || p.comps[|p.comps| - 1] == ParentDir then None
    else Some(p.comps[|p.comps| - 1])
  }

  /** `Path::extension`: the text after the last '.' of the file name,
      except when there is no '.' or the only candidate dot opens the name
      (".bashrc" has no extension). */
  function Extension(p: Path): (r: Option<string>)
    ensures r.Some? ==> FileName(p).Some?
    ensures r.Some? ==>
      var name := FileName(p).value;
      exists i :: 0 < i < |name| && name[i] == '.' && r.value == name[i + 1..]
    ensures r.Some? ==> forall j :: 0 <= j < |r.value| ==> r.value[j] != '.'
  {
    match FileName(p)
    case None => None
    case Some(name) =>
      match LastIndexOf(name, '.')
      case None => None
      case Some(i) => if i == 0 then None else Some(name[i + 1..])
  }

  /** A file named `stem.ext` with a non-empty stem has extension `ext`
      whenever `ext` holds no dot. */
  lemma ExtensionOfName(dirs: seq<string>, absolute: bool, stem: string, ext: string)
    requires stem != [] && (forall j :: 0 <= j < |ext| ==> ext[j] != '.')
    requires stem + "." + ext != ParentDir
    ensures Extension(Path(absolute, dirs + [stem + "." + ext])) == Some(ext)
  {
    var name := stem + "." + ext;
    var p := Path(absolute, dirs + [name]);
    assert FileName(p) == Some(name);
    assert name[|stem|] == '.';
    assert forall j :: |stem| < j < |name| ==> name[j] == ext[j - |stem| - 1];
    var li := LastIndexOf(name, '.');
    assert li.Some? && li.value == |stem|;
    assert name[|stem| + 1..] == ext;
  }

  /** A file name without any dot has no extension. */
  lemma NoDotNoExtension(p: Path)
    requires FileName(p).Some?
    requires forall j :: 0 <= j < |FileName(p).value| ==> FileName(p).value[j] != '.'
    ensures Extension(p) == None
  {
  }

  function Repeat(s: string, n: nat): (r: seq<string>)
    ensures |r| == n && forall i :: 0 <= i < n ==> r[i] == s
  {
    if n == 0 then [] else [s] + Repeat(s, n - 1)
  }

  /** The component walk of `pathdiff::diff_paths` for two paths with the
      same root. */
  function DiffComps(a: seq<string>, b: seq<string>): Option<seq<string>>
    decreases |a| + |b|
  {
    if |b| == 0 then Some(a)
    else if |a| == 0 then Some(Repeat(ParentDir, |b|))
    else if a[0] == b[0] then DiffComps(a[1..], b[1..])
    else if b[0] == ParentDir then None
    else Some(Repeat(ParentDir, |b|) + a)
  }

  /** `pathdiff::diff_paths(path, base)`: the relative path leading from
      `base` to `path`. With different roots, an absolute `path` is
      returned unchanged and a relative one has no answer. */
  function DiffPaths(path: Path, base: Path): Option<Path> {
    if path.absolute != base.absolute then
      (if path.absolute then Some(path) else None)
    else
      match DiffComps(path.comps, base.comps)
      case None => None
      case Some(c) => Some(Rel(c))
  }

  lemma {:induction false} DiffCompsPrefix(a: seq<string>, b: seq<string>)
    requires b <= a
    ensures DiffComps(a, b) == Some(a[|b|..])
    decreases |b|
  {
    if |b| > 0 {
      assert a[0] == b[0];
      assert b[1..] <= a[1..];
      DiffCompsPrefix(a[1..], b[1..]);
      assert a[1..][|b[1..]|..] == a[|b|..];
    }
  }

  /** For a path under `base`, the relative path is the remaining
      components, and joining it back onto `base` gives the path again. */
  lemma DiffPathsInverse(path: Path, base: Path)
    requires StartsWith(path, base)
    ensures DiffPaths(path, base) == Some(Rel(path.comps[|base.comps|..]))
    ensures Join(base, DiffPaths(path, base).value) == path
  {
    DiffCompsPrefix(path.comps, base.comps);
    assert base.comps + path.comps[|base.comps|..] == path.comps;
  }

  /** `path.to_str()`, with '/' as the separator. */
  function Render(p: Path): string {
    (if p.absolute then "/" else "") + Strings.JoinWith(p.comps, "/")
  }

  /** Every path as text, in order. */
  function Rendered(ps: seq<Path>): (r: seq<string>)
    ensures |r| == |ps| && forall i :: 0 <= i < |ps| ==> r[i] == Render(ps[i])
  {
    seq(|ps|, i requires 0 <= i < |ps| => Render(ps[i]))
  }

  /** The components `Path::components` yields for the pieces of a
      '/'-separated text: empty pieces and "." disappear. */
  function Normal(pieces: seq<string>): (r: seq<string>)
    ensures forall i :: 0 <= i < |r| ==> r[i] != "" && r[i] != "."
    ensures |r| <= |pieces|
  {
    if |pieces| == 0 then []
    else if pieces[0] == "" || pieces[0] == "." then Normal(pieces[1..])
    else [pieces[0]] + Normal(pieces[1..])
  }

  /** `PathBuf::from(s)` for a '/'-separated text. */
  function Parse(s: string): Path {
    Path(|s| > 0 && s[0] == '/', Normal(Strings.Split(s, '/')))
  }

  /** A plain file name parses to a one-component relative path, so
      joining it onto a directory stays inside that directory. */
  lemma ParseName(s: string)
    requires s != "" && s != "." && forall j :: 0 <= j < |s| ==> s[j] != '/'
    ensures Parse(s) == Rel([s])
    ensures forall base :: StartsWith(Join(base, Parse(s)), base)
  {
    Strings.SplitNoSeparator(s, '/');
  }

  /** Only a text starting with '/' parses to an absolute path. */
  lemma ParseAbsolute(s: string)
    ensures Parse(s).absolute <==> |s| > 0 && s[0] == '/'
  {
  }

  /** `PathBuf::from(p.to_str() + suffix)`: the suffix lands on the last
      component (or forms one on its own for an empty path). */
  function WithSuffix(p: Path, suffix: string): (r: Path)
    ensures r.absolute == p.absolute
    ensures |p.comps| > 0 ==>
              && |r.comps| == |p.comps|
              && r.comps[..|r.comps| - 1] == p.comps[..|p.comps| - 1]
              && r.comps[|r.comps| - 1] == p.comps[|p.comps| - 1] + suffix
    ensures |p.comps| == 0 ==> r.comps == [suffix]
  {
    if |p.comps| == 0 then Path(p.absolute, [suffix])
    else Path(p.absolute, p.comps[..|p.comps| - 1] + [p.comps[|p.comps| - 1] + suffix])
  }

  /** A path whose components could have come from `Path::components`:
      none is empty or ".", and none contains the separator. */
  predicate WellFormed(p: Path) {
    forall i :: 0 <= i < |p.comps| ==> ComponentOk(p.comps[i])
  }

  predicate ComponentOk(c: string) {
    c != "" && c != "." && forall j :: 0 <= j < |c| ==> c[j] != '/'
  }

  lemma {:induction false} NormalKeeps(xs: seq<string>)
    requires forall i :: 0 <= i < |xs| ==> ComponentOk(xs[i])
    ensures Normal(xs) == xs
  {
    if |xs| > 0 {
      NormalKeeps(xs[1..]);
      assert [xs[0]] + xs[1..] == xs;
    }
  }

  /** Rendering a well-formed path and parsing the text gives the same
      path back. */
  lemma ParseRender(p: Path)
    requires WellFormed(p)
    ensures Parse(Render(p)) == p
  {
    var body := Strings.JoinWith(p.comps, "/");
    if |p.comps| == 0 {
      assert body == "";
      if p.absolute {
        assert Render(p) == "/" == "" + ['/'] + "";
        Strings.SplitAtFirst("", '/', "");
      }
    } else {
      assert [p.comps[0]] + p.comps[1..] == p.comps;
      Strings.JoinSplit(p.comps, '/');
      NormalKeeps(p.comps);
      if p.absolute {
        assert Render(p) == "" + ['/'] + body;
        Strings.SplitAtFirst("", '/', body);
        assert Normal([""] + Strings.Split(body, '/')) == Normal(Strings.Split(body, '/'));
        assert Render(p)[0] == '/';
      } else {
        assert Render(p) == body;
        assert body[..|p.comps[0]|] == p.comps[0];
        assert body[0] == p.comps[0][0];
      }
    }
  }

  /** Joining well-formed paths gives a well-formed path. */
  lemma JoinWellFormed(base: Path, p: Path)
    requires WellFormed(base) && WellFormed(p)
    ensures WellFormed(Join(base, p))
  {
  }

  /** With a base free of "..", such as a canonical directory, and the
      same root on both sides, `diff_paths` always has an answer. */
  lemma {:induction false} DiffCompsTotal(a: seq<string>, b: seq<string>)
    requires forall i :: 0 <= i < |b| ==> b[i] != ParentDir
    ensures DiffComps(a, b).Some?
    decreases |a| + |b|
  {
    if |b| > 0 && |a| > 0 && a[0] == b[0] {
      DiffCompsTotal(a[1..], b[1..]);
    }
  }

  lemma DiffPathsTotal(path: Path, base: Path)
    requires forall i :: 0 <= i < |base.comps| ==> base.comps[i] != ParentDir
    requires path.absolute || !base.absolute
    ensures DiffPaths(path, base).Some?
  {
    DiffCompsTotal(path.comps, base.comps);
  }
}
