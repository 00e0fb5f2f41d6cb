/** The sandbox rules of the `src/lib/target`, `src/targets` and oldest
    revisions, where a target keeps its own file lists: a file is only
    added when it lies below the target's working directory and is a
    regular file; a script's list and asset setters canonicalise each name
    against the working directory first; and `copy_assets` only copies
    to destinations below the output directory. */
module Sandbox {
  import opened Wrappers
  import opened Errors
  import opened Paths
  import opened Assets
  import FailFast

  /** Every listed path lies below the working directory. */
  predicate AllInside(files: seq<Path>, wd: Path) {
    forall i :: 0 <= i < |files| ==> StartsWith(files[i], wd)
  }

  /** `add_file`, `add_rc_file`, `add_def_file`: a path outside the working
      directory is refused first, then anything that is not a regular file;
      otherwise the path is appended and the list is otherwise unchanged. */
  function AddChecked(files: seq<Path>, wd: Path, file: Path, isFile: Path -> bool): (r: Result<seq<Path>, Error>)
    ensures !StartsWith(file, wd) ==> r == Err(PathOutsideWorkingDirectory)
    ensures StartsWith(file, wd) && !isFile(file) ==> r == Err(AddFileIsDirectory)
    ensures r.Ok? ==> |r.value| == |files| + 1 && r.value[..|files|] == files && r.value[|files|] == file
  {
    if !StartsWith(file, wd) then Err(PathOutsideWorkingDirectory)
    else if isFile(file) then Ok(files + [file])
    else Err(AddFileIsDirectory)
  }

  /** The sandbox invariant: adding files one by one never lets a path
      from outside the working directory into the list. */
  lemma AddCheckedKeepsInside(files: seq<Path>, wd: Path, file: Path, isFile: Path -> bool)
    requires AllInside(files, wd)
    requires AddChecked(files, wd, file, isFile).Ok?
    ensures AllInside(AddChecked(files, wd, file, isFile).value, wd)
  {
  }

  /** What a setter's loop left behind: the state reached so far and the
      error that stopped it, if any. The loop mutates the target in place,
      so everything done before the error stays. */
  datatype Partial<T> = Partial(state: T, error: Option<Error>)

  /** One name given to a list setter: `canonicalize(workdir.join(name))`
      (a missing path is an I/O error), then the checks of `AddChecked`. */
  function Admit(wd: Path, canon: Path -> Option<Path>, isFile: Path -> bool, name: string): (r: Result<Path, Error>)
    ensures canon(Join(wd, Parse(name))).None? ==> r == Err(IoError)
    ensures r.Ok? <==> canon(Join(wd, Parse(name))).Some? && AddChecked([], wd, canon(Join(wd, Parse(name))).value, isFile).Ok?
    ensures r.Ok? ==> r.value == canon(Join(wd, Parse(name))).value && StartsWith(r.value, wd)
    ensures canon(Join(wd, Parse(name))).Some? && r.Err? ==>
              r.error == AddChecked([], wd, canon(Join(wd, Parse(name))).value, isFile).error
  {
    match canon(Join(wd, Parse(name)))
    case None => Err(IoError)
    case Some(file) =>
      var _ :- AddChecked([], wd, file, isFile);
      Ok(file)
  }

  function Admitter(wd: Path, canon: Path -> Option<Path>, isFile: Path -> bool): string -> Result<Path, Error> {
    name => Admit(wd, canon, isFile, name)
  }

  /** A setter's loop over the names it was given: each name is turned
      into an element by `f` and appended; the first name `f` refuses
      stops the loop with its error, keeping what was appended before. */
  function Extend<T>(state: seq<T>, names: seq<string>, f: string -> Result<T, Error>): (r: Partial<seq<T>>)
    ensures |state| <= |r.state| && r.state[..|state|] == state
    decreases |names|
  {
    if |names| == 0 then Partial(state, None)
    else
      match f(names[0])
      case Err(e) => Partial(state, Some(e))
      case Ok(x) =>
        var rest := Extend(state + [x], names[1..], f);
        assert rest.state[..|state|] == rest.state[..|state| + 1][..|state|];
        rest
  }

  /** The loop stops at the first name `f` refuses, reporting its error,
      and has appended exactly the elements of the names before it, in
      order. */
  lemma {:induction false} ExtendStopsAtFirstRefusal<T>(state: seq<T>, names: seq<string>, f: string -> Result<T, Error>)
    ensures var r := Extend(state, names, f);
            var k := FailFast.FirstFailure(names, f);
            && (r.error.None? <==> k == |names|)
            && (r.error.Some? ==> r.error.value == f(names[k]).error)
            && |r.state| == |state| + k
            && (forall i :: 0 <= i < k ==> r.state[|state| + i] == f(names[i]).value)
    decreases |names|
  {
    if |names| > 0 && f(names[0]).Ok? {
      var x := f(names[0]).value;
      var rest := Extend(state + [x], names[1..], f);
      ExtendStopsAtFirstRefusal(state + [x], names[1..], f);
      var k' := FailFast.FirstFailure(names[1..], f);
      forall i | 0 <= i < 1 + k'
        ensures rest.state[|state| + i] == f(names[i]).value
      {
        if i == 0 {
          assert rest.state[|state|] == rest.state[..|state| + 1][|state|] == x;
        } else {
          assert names[1..][i - 1] == names[i];
        }
      }
      if rest.error.Some? {
        assert names[1..][k'] == names[1 + k'];
      }
    }
  }

  /** The `files`, `resource_files` and `def_files` setters: every name is
      admitted and appended in order (the list is extended, not replaced). */
  function AddAll(files: seq<Path>, wd: Path, names: seq<string>, canon: Path -> Option<Path>,
                  isFile: Path -> bool): Partial<seq<Path>> {
    Extend(files, names, Admitter(wd, canon, isFile))
  }

  /** However far a setter gets, the list stays inside the working
      directory. */
  lemma AddAllKeepsInside(files: seq<Path>, wd: Path, names: seq<string>, canon: Path -> Option<Path>,
                          isFile: Path -> bool)
    requires AllInside(files, wd)
    ensures AllInside(AddAll(files, wd, names, canon, isFile).state, wd)
  {
    var r := AddAll(files, wd, names, canon, isFile);
    var k := FailFast.FirstFailure(names, Admitter(wd, canon, isFile));
    ExtendStopsAtFirstRefusal(files, names, Admitter(wd, canon, isFile));
    forall i | 0 <= i < |r.state|
      ensures StartsWith(r.state[i], wd)
    {
      if i < |files| {
        assert r.state[i] == r.state[..|files|][i] == files[i];
      } else {
        assert Admitter(wd, canon, isFile)(names[i - |files|]).Ok?;
      }
    }
  }

  /** The list getters: every path relative to the working directory
      (`diff_paths(..).unwrap()`, which aborts on a path with none). */
  function Relatives(files: seq<Path>, wd: Path): (r: Result<seq<Path>, Error>)
    ensures r.Ok? <==> forall i :: 0 <= i < |files| ==> DiffPaths(files[i], wd).Some?
    ensures r.Ok? ==> |r.value| == |files| && forall i :: 0 <= i < |files| ==> r.value[i] == DiffPaths(files[i], wd).value
    ensures r.Err? ==> r.error.Panic?
  {
    if forall i :: 0 <= i < |files| ==> DiffPaths(files[i], wd).Some? then
      Ok(seq(|files|, i requires 0 <= i < |files| => DiffPaths(files[i], wd).value))
    else Err(Panic("diff_paths(...).unwrap() on a listed path with no path relative to the working directory"))
  }

  /** For a list the sandbox kept inside the working directory, the getter
      never aborts, and each relative path joined back onto the working
      directory is the stored path again. */
  lemma {:induction false} RelativesRoundTrip(files: seq<Path>, wd: Path)
    requires AllInside(files, wd)
    ensures Relatives(files, wd).Ok?
    ensures forall i :: 0 <= i < |files| ==> Join(wd, Relatives(files, wd).value[i]) == files[i]
  {
    forall i | 0 <= i < |files|
      ensures DiffPaths(files[i], wd).Some? && Join(wd, DiffPaths(files[i], wd).value) == files[i]
    {
      DiffPathsInverse(files[i], wd);
    }
  }

  /** The `assets` setter: each (source, destination) entry of the script's
      table, in the table's traversal order, has its source canonicalised
      against the working directory (a missing source is an I/O error) and
      refused with `PathOutsideWorkingDirectory` when it is not below it;
      otherwise it is inserted, overwriting an earlier entry for the same
      file. Entries inserted before an error stay. */
  function SetAssets(assets: map<Path, string>, wd: Path, entries: seq<(string, string)>,
                     canon: Path -> Option<Path>): (r: Partial<map<Path, string>>)
    ensures assets.Keys <= r.state.Keys
    ensures (forall k :: k in assets ==> StartsWith(k, wd)) ==> forall k :: k in r.state ==> StartsWith(k, wd)
    ensures r.error.None? <==> forall i :: 0 <= i < |entries| ==> AssetSource(wd, canon, entries[i].0).Ok?
    ensures r.error.None? ==> forall i :: 0 <= i < |entries| ==> AssetSource(wd, canon, entries[i].0).value in r.state
    ensures r.error.Some? ==> r.error.value in {IoError, PathOutsideWorkingDirectory}
    decreases |entries|
  {
    if |entries| == 0 then Partial(assets, None)
    else
      match AssetSource(wd, canon, entries[0].0)
      case Err(e) => Partial(assets, Some(e))
      case Ok(src) =>
        var rest := SetAssets(assets[src := entries[0].1], wd, entries[1..], canon);
        assert forall i :: 1 <= i < |entries| ==> entries[1..][i - 1] == entries[i];
        rest
  }

  /** The canonical source of one asset entry, if the setter accepts it. */
  function AssetSource(wd: Path, canon: Path -> Option<Path>, key: string): (r: Result<Path, Error>)
    ensures r.Ok? <==> canon(Join(wd, Parse(key))).Some? && StartsWith(canon(Join(wd, Parse(key))).value, wd)
    ensures r.Ok? ==> r.value == canon(Join(wd, Parse(key))).value
    ensures canon(Join(wd, Parse(key))).None? ==> r == Err(IoError)
    ensures canon(Join(wd, Parse(key))).Some? && r.Err? ==> r == Err(PathOutsideWorkingDirectory)
  {
    match canon(Join(wd, Parse(key)))
    case None => Err(IoError)
    case Some(path) => if StartsWith(path, wd) then Ok(path) else Err(PathOutsideWorkingDirectory)
  }

  /** One asset of `copy_assets`: the destination is joined onto the output
      directory and must stay below it. */
  function CopyChecked(outDir: Path, key: Path, val: string): (r: Result<Copy, Error>)
    ensures r.Ok? <==> Inside(outDir, Parse(val))
    ensures r.Ok? ==> r.value == Copy(key, Join(outDir, Parse(val)))
    ensures r.Err? ==> r.error == AssetCopyPathOutsideWorkingDirectory
  {
    var copyPath := Join(outDir, Parse(val));
    if !StartsWith(copyPath, outDir) then Err(AssetCopyPathOutsideWorkingDirectory)
    else Ok(Copy(key, copyPath))
  }

  function Checker(outDir: Path): ((Path, string)) -> Result<Copy, Error> {
    (kv: (Path, string)) => CopyChecked(outDir, kv.0, kv.1)
  }

  /** What copying a whole asset map does, independent of the order the
      map is walked in: every copy when every destination stays in the
      output directory, and the one possible error otherwise. */
  function CopyAll(assets: map<Path, string>, outDir: Path): (r: Result<set<Copy>, Error>)
    ensures r.Ok? <==> forall k :: k in assets ==> Inside(outDir, Parse(assets[k]))
    ensures r.Err? ==> r.error == AssetCopyPathOutsideWorkingDirectory
    ensures r.Ok? ==> forall k :: k in assets ==> Copy(k, Join(outDir, Parse(assets[k]))) in r.value
    ensures r.Ok? ==> forall c :: c in r.value ==> c.from in assets && c.to == Join(outDir, Parse(assets[c.from]))
  {
    if forall k :: k in assets ==> Inside(outDir, Parse(assets[k])) then
      Ok(set k | k in assets :: Copy(k, Join(outDir, Parse(assets[k]))))
    else Err(AssetCopyPathOutsideWorkingDirectory)
  }

  /** The source's loop over the map, in whatever order the map yields its
      entries, agrees with `CopyAll`: it fails exactly when `CopyAll` does,
      with the same error, and otherwise performs exactly those copies. */
  lemma CopyInAnyOrder(assets: map<Path, string>, outDir: Path, order: seq<(Path, string)>)
    requires IsEnumeration(order, assets.Items)
    ensures var t := FailFast.Traverse(order, Checker(outDir));
            && (t.Ok? <==> CopyAll(assets, outDir).Ok?)
            && (t.Err? ==> t.error == CopyAll(assets, outDir).error)
            && (t.Ok? ==> (set c | c in t.value) == CopyAll(assets, outDir).value)
  {
    EnumeratedMap(order, assets);
    var t := FailFast.Traverse(order, Checker(outDir));
    if t.Ok? {
      TraversalCopiesAll(assets, outDir, order);
    } else {
      TraversalFails(assets, outDir, order);
    }
  }

  /** When every entry of an enumeration of the map passes its check, so
      does every entry of the map. */
  lemma TraversalAllInside(assets: map<Path, string>, outDir: Path, order: seq<(Path, string)>)
    requires forall k :: k in assets ==> (k, assets[k]) in order
    requires FailFast.Traverse(order, Checker(outDir)).Ok?
    ensures CopyAll(assets, outDir).Ok?
  {
    forall k | k in assets
      ensures Inside(outDir, Parse(assets[k]))
    {
      var i :| 0 <= i < |order| && order[i] == (k, assets[k]);
      assert Checker(outDir)(order[i]).Ok?;
    }
  }

  /** When some entry of an enumeration of the map fails its check, so does
      `CopyAll`. */
  lemma TraversalFails(assets: map<Path, string>, outDir: Path, order: seq<(Path, string)>)
    requires forall i :: 0 <= i < |order| ==> order[i].0 in assets && assets[order[i].0] == order[i].1
    requires FailFast.Traverse(order, Checker(outDir)).Err?
    ensures CopyAll(assets, outDir).Err?
  {
    var k := FailFast.FirstFailure(order, Checker(outDir));
    assert !Inside(outDir, Parse(assets[order[k].0]));
  }

  /** A successful walk over an enumeration of the map performs exactly
      the copies `CopyAll` names. */
  lemma TraversalCopiesAll(assets: map<Path, string>, outDir: Path, order: seq<(Path, string)>)
    requires IsEnumeration(order, assets.Items)
    requires FailFast.Traverse(order, Checker(outDir)).Ok?
    ensures CopyAll(assets, outDir).Ok?
    ensures (set c | c in FailFast.Traverse(order, Checker(outDir)).value) == CopyAll(assets, outDir).value
  {
    EnumeratedMap(order, assets);
    TraversalAllInside(assets, outDir, order);
    var t := FailFast.Traverse(order, Checker(outDir));
    var all := CopyAll(assets, outDir).value;
    forall c | c in t.value
      ensures c in all
    {
      var i :| 0 <= i < |t.value| && t.value[i] == c;
      assert c == Copy(order[i].0, Join(outDir, Parse(order[i].1)));
    }
    forall c | c in all
      ensures c in t.value
    {
      var i :| 0 <= i < |order| && order[i] == (c.from, assets[c.from]);
      assert t.value[i] == c;
    }
  }
}
