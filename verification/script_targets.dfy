/** The target of the single-script revision (`src/target.rs`, used by
    `src/lua_file.rs`). It is one flat record: the GCC/MSVC choice is a
    flag. Its sources are kept inside the working directory through the
    same checked add as the later revisions (`Sandbox.AddChecked`). Its
    assets are keyed by the raw text the script gave, not by the canonical
    path. */
module ScriptTargets {
  import opened Wrappers
  import opened Errors
  import opened Paths
  import opened Toolchain
  import opened Sandbox
  import Walk
  import Strings
  import FailFast

  datatype Target = Target(
    name: string,
    workdir: Path,
    opts: Options,
    assets: map<string, string>,
    lang: string,
    output: Option<string>,
    files: seq<Path>,
    compiler: Option<string>,
    linker: Option<string>,
    msvc: bool)

  /** `Target::new`, called by the workspace's `create_target`: the
      workspace's tool, MSVC and output settings are copied in. Everything
      else starts empty. */
  function New(name: string, compiler: Option<string>, linker: Option<string>, msvc: bool,
               output: Option<string>, workdir: Path): (t: Target)
    ensures t.files == [] && t.assets == map[] && t.lang == ""
    ensures t.opts == Options([], [], [], [], [], [])
    ensures t.name == name && t.workdir == workdir && t.msvc == msvc
    ensures t.compiler == compiler && t.linker == linker && t.output == output
  {
    Target(name, workdir, Options([], [], [], [], [], []), map[], "", output, [], compiler, linker, msvc)
  }

  /** `add_file`: a path outside the working directory or not a regular
      file is refused; otherwise it is appended. */
  function AddFile(t: Target, file: Path, isFile: Path -> bool): (r: Result<Target, Error>)
    ensures !StartsWith(file, t.workdir) ==> r == Err(PathOutsideWorkingDirectory)
    ensures StartsWith(file, t.workdir) && !isFile(file) ==> r == Err(AddFileIsDirectory)
    ensures r.Ok? <==> StartsWith(file, t.workdir) && isFile(file)
    ensures r.Ok? ==> r.value == t.(files := t.files + [file])
  {
    var files :- AddChecked(t.files, t.workdir, file, isFile);
    Ok(t.(files := files))
  }

  // ----- add_dir -----

  /** `add_dir(path, recursive)` on the canonical directory `start`: the
      start must lie in the working directory and be listable. Each entry
      in listing order is handled as follows. A sub-directory is entered
      (and checked again) when `recursive` is set, and skipped otherwise.
      A file goes through `add_file`, which refuses one outside the
      working directory. An entry that cannot be read or canonicalised is
      an I/O error. Anything else is skipped. The first error stops
      the walk; files added before it stay. */
  function AddDir(files: seq<Path>, wd: Path, start: Walk.Node, recursive: bool): (r: Partial<seq<Path>>)
    ensures files <= r.state
    ensures AllInside(files, wd) ==> AllInside(r.state, wd)
    decreases start, 1
  {
    if !StartsWith(start.path, wd) then Partial(files, Some(PathOutsideWorkingDirectory))
    else if !start.Dir? then Partial(files, Some(IoError))
    else AddEntries(files, wd, start, 0, recursive)
  }

  /** The loop over the entries of `dir` from the `i`-th on. */
  function AddEntries(files: seq<Path>, wd: Path, dir: Walk.Node, i: nat, recursive: bool): (r: Partial<seq<Path>>)
    requires dir.Dir? && i <= |dir.entries|
    ensures files <= r.state
    ensures i < |dir.entries| && dir.entries[i].Broken() ==> r == Partial(files, Some(IoError))
    ensures AllInside(files, wd) ==> AllInside(r.state, wd)
    decreases dir, 0, |dir.entries| - i
  {
    if i == |dir.entries| then Partial(files, None)
    else
      var e := dir.entries[i];
      if e.Broken() then Partial(files, Some(IoError))
      else if e.Dir? && recursive then
        var sub := AddDir(files, wd, e, recursive);
        if sub.error.Some? then sub else AddEntries(sub.state, wd, dir, i + 1, recursive)
      else if e.File? then
        if !StartsWith(e.path, wd) then Partial(files, Some(PathOutsideWorkingDirectory))
        else AddEntries(files + [e.path], wd, dir, i + 1, recursive)
      else AddEntries(files, wd, dir, i + 1, recursive)
  }

  lemma AllInsideAppend(a: seq<Path>, b: seq<Path>, wd: Path)
    ensures AllInside(a + b, wd) <==> AllInside(a, wd) && AllInside(b, wd)
  {
    assert forall i :: 0 <= i < |a| ==> (a + b)[i] == a[i];
    assert forall i :: 0 <= i < |b| ==> (a + b)[|a| + i] == b[i];
    if AllInside(a, wd) && AllInside(b, wd) {
      forall i | 0 <= i < |a + b|
        ensures StartsWith((a + b)[i], wd)
      {
        if i >= |a| {
          assert (a + b)[i] == b[i - |a|];
        }
      }
    }
  }

  /** `add_dir` against the directory walk of the later revisions
      (`Walk.WalkDir` without a filter). `add_dir` completes exactly when
      the walk succeeds and every file it lists is inside the working
      directory. It then appends exactly the walk's files, in the walk's
      order. */
  lemma {:induction false} AddDirIsWalk(files: seq<Path>, wd: Path, start: Walk.Node, recursive: bool)
    ensures var r := AddDir(files, wd, start, recursive);
            var w := Walk.WalkDir(wd, start, recursive, None);
            && (r.error.None? <==> w.Ok? && AllInside(w.value, wd))
            && (r.error.None? ==> r.state == files + w.value)
    decreases start, 1
  {
    if StartsWith(start.path, wd) && start.Dir? {
      AddEntriesIsWalk(files, wd, start, 0, recursive);
    }
  }

  lemma {:induction false} AddEntriesIsWalk(files: seq<Path>, wd: Path, dir: Walk.Node, i: nat, recursive: bool)
    requires dir.Dir? && i <= |dir.entries|
    ensures var r := AddEntries(files, wd, dir, i, recursive);
            var w := Walk.WalkEntries(wd, dir, i, recursive, None);
            && (r.error.None? <==> w.Ok? && AllInside(w.value, wd))
            && (r.error.None? ==> r.state == files + w.value)
    decreases dir, 0, |dir.entries| - i
  {
    if i < |dir.entries| {
      var e := dir.entries[i];
      if e.Broken() {
        assert Walk.WalkEntries(wd, dir, i, recursive, None).Err?;
      } else if e.Dir? && recursive {
        AddDirIsWalk(files, wd, e, recursive);
        var sub := AddDir(files, wd, e, recursive);
        if sub.error.None? {
          AddEntriesIsWalk(sub.state, wd, dir, i + 1, recursive);
        }
        SubDirEntry(files, wd, dir, i, recursive);
      } else if e.File? {
        if StartsWith(e.path, wd) {
          AddEntriesIsWalk(files + [e.path], wd, dir, i + 1, recursive);
        }
        FileEntry(files, wd, dir, i, recursive);
      } else {
        AddEntriesIsWalk(files, wd, dir, i + 1, recursive);
        OtherEntry(files, wd, dir, i, recursive);
      }
    }
  }

  /** The statement of `AddDirIsWalk` for one start. */
  predicate DirAgrees(files: seq<Path>, wd: Path, start: Walk.Node, recursive: bool) {
    var r := AddDir(files, wd, start, recursive);
    var w := Walk.WalkDir(wd, start, recursive, None);
    && (r.error.None? <==> w.Ok? && AllInside(w.value, wd))
    && (r.error.None? ==> r.state == files + w.value)
  }

  /** The statement of `AddEntriesIsWalk` for one index. */
  predicate EntriesAgree(files: seq<Path>, wd: Path, dir: Walk.Node, i: nat, recursive: bool)
    requires dir.Dir? && i <= |dir.entries|
  {
    var r := AddEntries(files, wd, dir, i, recursive);
    var w := Walk.WalkEntries(wd, dir, i, recursive, None);
    && (r.error.None? <==> w.Ok? && AllInside(w.value, wd))
    && (r.error.None? ==> r.state == files + w.value)
  }

  /** A sub-directory entry, walked recursively. */
  lemma SubDirEntry(files: seq<Path>, wd: Path, dir: Walk.Node, i: nat, recursive: bool)
    requires dir.Dir? && i < |dir.entries| && dir.entries[i].Dir? && recursive
    requires DirAgrees(files, wd, dir.entries[i], recursive)
    requires var sub := AddDir(files, wd, dir.entries[i], recursive);
             sub.error.None? ==> EntriesAgree(sub.state, wd, dir, i + 1, recursive)
    ensures EntriesAgree(files, wd, dir, i, recursive)
  {
    var e := dir.entries[i];
    var sub := AddDir(files, wd, e, recursive);
    var found := Walk.WalkDir(wd, e, recursive, None);
    var rest := Walk.WalkEntries(wd, dir, i + 1, recursive, None);
    if found.Ok? && rest.Ok? {
      AllInsideAppend(found.value, rest.value, wd);
      if sub.error.None? {
        assert files + found.value + rest.value == files + (found.value + rest.value);
      }
    }
  }

  /** A file entry: added when inside the working directory, an error
      otherwise. */
  lemma FileEntry(files: seq<Path>, wd: Path, dir: Walk.Node, i: nat, recursive: bool)
    requires dir.Dir? && i < |dir.entries| && dir.entries[i].File?
    requires StartsWith(dir.entries[i].path, wd) ==> EntriesAgree(files + [dir.entries[i].path], wd, dir, i + 1, recursive)
    ensures EntriesAgree(files, wd, dir, i, recursive)
  {
    var e := dir.entries[i];
    var rest := Walk.WalkEntries(wd, dir, i + 1, recursive, None);
    if rest.Ok? {
      assert Walk.WalkEntries(wd, dir, i, recursive, None) == Ok([e.path] + rest.value);
      AllInsideAppend([e.path], rest.value, wd);
      if StartsWith(e.path, wd) {
        assert files + [e.path] + rest.value == files + ([e.path] + rest.value);
      } else {
        assert ([e.path] + rest.value)[0] == e.path;
      }
    }
  }

  /** Any other readable entry (a sub-directory when not recursing) is
      skipped by both. */
  lemma OtherEntry(files: seq<Path>, wd: Path, dir: Walk.Node, i: nat, recursive: bool)
    requires dir.Dir? && i < |dir.entries| && !dir.entries[i].File? && !dir.entries[i].Broken()
    requires !(dir.entries[i].Dir? && recursive)
    requires EntriesAgree(files, wd, dir, i + 1, recursive)
    ensures EntriesAgree(files, wd, dir, i, recursive)
  {
    var rest := Walk.WalkEntries(wd, dir, i + 1, recursive, None);
    if rest.Ok? {
      assert [] + rest.value == rest.value;
      assert Walk.WalkEntries(wd, dir, i, recursive, None) == Ok(rest.value);
    }
  }

  /** The script's `add_dir(path, recursive)` method: the path is joined
      onto the working directory and canonicalised first. `start` is what
      that yields (None when the path does not exist, an I/O error). */
  function AddDirAt(t: Target, start: Option<Walk.Node>, recursive: bool): (r: Partial<Target>)
    ensures r.state == t.(files := r.state.files)
    ensures t.files <= r.state.files
    ensures start.None? ==> r == Partial(t, Some(IoError))
    ensures AllInside(t.files, t.workdir) ==> AllInside(r.state.files, t.workdir)
  {
    match start
    case None => Partial(t, Some(IoError))
    case Some(n) =>
      var added := AddDir(t.files, t.workdir, n, recursive);
      Partial(t.(files := added.state), added.error)
  }

  // ----- The `files` field -----

  /** `s.replace(pat, "")`: every non-overlapping occurrence of `pat`,
      scanning from the left, is removed. An empty pattern changes
      nothing. */
  function RemoveAll(s: string, pat: string): (r: string)
    ensures |r| <= |s|
    ensures |pat| == 0 ==> r == s
    ensures (forall j :: 0 <= j <= |s| ==> !OccursAt(s, pat, j)) ==> r == s
  {
    if |pat| == 0 || |s| < |pat| then s
    else if s[..|pat|] == pat then
      assert OccursAt(s, pat, 0);
      RemoveAll(s[|pat|..], pat)
    else
      var rest := RemoveAll(s[1..], pat);
      assert forall j :: 0 <= j <= |s[1..]| ==> OccursAt(s[1..], pat, j) == OccursAt(s, pat, j + 1);
      [s[0]] + rest
  }

  /** `pat` occurs in `s` starting at index `j`. */
  predicate OccursAt(s: string, pat: string, j: nat) {
    j + |pat| <= |s| && s[j..j + |pat|] == pat
  }

  /** The `files` getter as written: each stored path as text with every
      occurrence of the working directory's text removed. What is left of
      a path inside the working directory still starts with the separator,
      so it reads as an absolute path. */
  function FilesAsWritten(t: Target): (r: seq<string>)
    ensures |r| == |t.files|
    ensures forall i :: 0 <= i < |r| ==> r[i] == RemoveAll(Render(t.files[i]), Render(t.workdir))
  {
    seq(|t.files|, i requires 0 <= i < |t.files| => RemoveAll(Render(t.files[i]), Render(t.workdir)))
  }

  /** The `files` setter: every name is joined onto the working directory,
      canonicalised and added, in order. The list is extended, not
      replaced, and a refusal stops the loop, keeping what was added. */
  function SetFiles(t: Target, names: seq<string>, canon: Path -> Option<Path>, isFile: Path -> bool)
    : (r: Partial<Target>)
    ensures r.state == t.(files := r.state.files)
    ensures t.files <= r.state.files
    ensures AllInside(t.files, t.workdir) ==> AllInside(r.state.files, t.workdir)
    ensures r.error.None? <==> forall i :: 0 <= i < |names| ==> Admit(t.workdir, canon, isFile, names[i]).Ok?
  {
    var added := AddAll(t.files, t.workdir, names, canon, isFile);
    ExtendStopsAtFirstRefusal(t.files, names, Admitter(t.workdir, canon, isFile));
    if AllInside(t.files, t.workdir) then
      AddAllKeepsInside(t.files, t.workdir, names, canon, isFile);
      Partial(t.(files := added.state), added.error)
    else Partial(t.(files := added.state), added.error)
  }

  /** The getter as written does not give back names the setter accepts.
      Take working directory `/p` and stored file `/p/a.c`. The getter
      yields "/a.c", and joining that onto `/p` gives the absolute `/a.c`,
      outside the working directory. Writing the list that was just read
      into a target therefore fails, whether or not `/a.c` exists. */
  lemma FilesGetterEscapes(canon: Path -> Option<Path>, isFile: Path -> bool)
    requires canon(Path(true, ["a.c"])) == None || canon(Path(true, ["a.c"])) == Some(Path(true, ["a.c"]))
    ensures var t := New("app", None, None, false, None, Path(true, ["p"])).(files := [Path(true, ["p", "a.c"])]);
            && FilesAsWritten(t) == ["/a.c"]
            && Join(t.workdir, Parse("/a.c")) == Path(true, ["a.c"])
            && !StartsWith(Join(t.workdir, Parse("/a.c")), t.workdir)
            && SetFiles(t.(files := []), FilesAsWritten(t), canon, isFile).error.Some?
  {
    var t := New("app", None, None, false, None, Path(true, ["p"])).(files := [Path(true, ["p", "a.c"])]);
    ExampleTexts();
    ExampleRemoval();
    assert FilesAsWritten(t)[0] == "/a.c";
    ExampleParse();
    assert Admit(t.workdir, canon, isFile, "/a.c").Err?;
    assert Admitter(t.workdir, canon, isFile)("/a.c").Err?;
  }

  lemma ExampleTexts()
    ensures Render(Path(true, ["p"])) == "/p"
    ensures Render(Path(true, ["p", "a.c"])) == "/p/a.c"
    ensures Render(Path(true, ["a.c"])) == "/a.c"
  {
    assert Strings.JoinWith(["p", "a.c"], "/") == "p" + "/" + Strings.JoinWith(["a.c"], "/");
  }

  lemma ExampleRemoval()
    ensures RemoveAll("/p/a.c", "/p") == "/a.c"
  {
    assert RemoveAll("c", "/p") == "c";
    assert ".c"[..2] != "/p" && ".c"[1..] == "c";
    assert RemoveAll(".c", "/p") == ".c";
    assert "a.c"[..2] != "/p" && "a.c"[1..] == ".c";
    assert RemoveAll("a.c", "/p") == "a.c";
    assert "/a.c"[..2][1] == 'a';
    assert "/a.c"[..2] != "/p" && "/a.c"[1..] == "a.c";
    assert RemoveAll("/a.c", "/p") == "/a.c";
    assert "/p/a.c"[..2] == "/p" && "/p/a.c"[2..] == "/a.c";
  }

  lemma ExampleParse()
    ensures Parse("/a.c") == Path(true, ["a.c"])
  {
    assert ComponentOk("a.c");
    ExampleTexts();
    ParseRender(Path(true, ["a.c"]));
  }

  /** The corrected getter, as the later revisions write it: each stored
      path relative to the working directory (`diff_paths`), as text. */
  function Files(t: Target): (r: Result<seq<string>, Error>)
    ensures r.Ok? <==> Relatives(t.files, t.workdir).Ok?
    ensures r.Ok? ==> r.value == Rendered(Relatives(t.files, t.workdir).value)
  {
    var rel :- Relatives(t.files, t.workdir);
    Ok(Rendered(rel))
  }

  /** Reading the corrected `files` and writing the list into a target
      with no files gives the same list back. This holds when every stored
      path is a canonical, well-formed regular file inside the working
      directory, which is what `add_file` and the setter store. */
  lemma {:induction false} FilesRoundTrip(t: Target, canon: Path -> Option<Path>, isFile: Path -> bool)
    requires AllInside(t.files, t.workdir)
    requires forall i :: 0 <= i < |t.files| ==>
               WellFormed(t.files[i]) && canon(t.files[i]) == Some(t.files[i]) && isFile(t.files[i])
    ensures Files(t).Ok?
    ensures forall i :: 0 <= i < |t.files| ==> Join(t.workdir, Parse(Files(t).value[i])) == t.files[i]
    ensures SetFiles(t.(files := []), Files(t).value, canon, isFile) == Partial(t, None)
  {
    RelativesRoundTrip(t.files, t.workdir);
    var rel := Relatives(t.files, t.workdir).value;
    var names := Files(t).value;
    var f := Admitter(t.workdir, canon, isFile);
    forall i | 0 <= i < |t.files|
      ensures Join(t.workdir, Parse(names[i])) == t.files[i]
      ensures f(names[i]) == Ok(t.files[i])
    {
      DiffPathsInverse(t.files[i], t.workdir);
      assert rel[i] == Rel(t.files[i].comps[|t.workdir.comps|..]);
      assert WellFormed(rel[i]);
      ParseRender(rel[i]);
    }
    ExtendStopsAtFirstRefusal([], names, f);
    var r := AddAll([], t.workdir, names, canon, isFile);
    assert FailFast.FirstFailure(names, f) == |names|;
    assert r.state == t.files;
  }

  // ----- The `assets` field -----

  /** The `assets` setter: for each (source, destination) entry of the
      script's table, the source is joined onto the working directory and
      canonicalised. A missing source is an I/O error, and one outside the
      working directory is refused. The entry is then stored under the
      source text as the script wrote it, not its canonical path. Entries
      stored before an error stay. */
  function SetAssets(t: Target, entries: seq<(string, string)>, canon: Path -> Option<Path>): (r: Partial<Target>)
    ensures r.state == t.(assets := r.state.assets)
    ensures t.assets.Keys <= r.state.assets.Keys
    ensures r.error.None? <==> forall i :: 0 <= i < |entries| ==> AssetSource(t.workdir, canon, entries[i].0).Ok?
    ensures r.error.None? ==> forall i :: 0 <= i < |entries| ==> entries[i].0 in r.state.assets
    ensures r.error.Some? ==> r.error.value in {IoError, PathOutsideWorkingDirectory}
    ensures (forall k :: k in t.assets ==> AssetSource(t.workdir, canon, k).Ok?) ==>
              forall k :: k in r.state.assets ==> AssetSource(t.workdir, canon, k).Ok?
    decreases |entries|
  {
    if |entries| == 0 then Partial(t, None)
    else
      match AssetSource(t.workdir, canon, entries[0].0)
      case Err(e) => Partial(t, Some(e))
      case Ok(_) =>
        var rest := SetAssets(t.(assets := t.assets[entries[0].0 := entries[0].1]), entries[1..], canon);
        assert forall i :: 1 <= i < |entries| ==> entries[1..][i - 1] == entries[i];
        rest
  }
}
