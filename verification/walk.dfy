/** `walk_dir`, identical in the three workspace revisions: list the files
    below a start directory that lies in the working directory, descending
    into sub-directories when asked, and keeping only files whose extension
    (the empty string when there is none) is listed in the filter, if there
    is a filter. The directory listing is a tree of canonical paths given
    as a parameter; every directory the walk enters is checked again. */
module Walk {
  import opened Wrappers
  import opened Errors
  import opened Paths

  /** A directory entry after `canonicalize`: a file, a directory with its
      entries in listing order, anything else (neither `is_file` nor
      `is_dir`), an entry that `read_dir` could not yield, or an entry
      that could not be canonicalised (a dangling link, say). */
  datatype Node =
    | File(path: Path)
    | Dir(path: Path, entries: seq<Node>)
    | Special(path: Path)
    | Unreadable(path: Path)
    | Unresolvable(path: Path)
  {
    /** An entry the walk cannot get past: `entry?` or the
        `canonicalize` of its path fails. */
    predicate Broken() {
      Unreadable? || Unresolvable?
    }
  }

  /** The extension filter. */
  predicate Keep(filter: Option<seq<string>>, p: Path) {
    filter.None? || Extension(p).GetOr("") in filter.value
  }

  /** `walk_dir(start, recursive, filter)`: a start outside the working
      directory is refused; listing something that is not a directory is an
      I/O error. */
  function WalkDir(wd: Path, start: Node, recursive: bool, filter: Option<seq<string>>): (r: Result<seq<Path>, Error>)
    ensures r.Err? ==> r.error == PathOutsideWorkingDirectory || r.error == IoError
    ensures !StartsWith(start.path, wd) ==> r == Err(PathOutsideWorkingDirectory)
    decreases start, 1
  {
    if !StartsWith(start.path, wd) then Err(PathOutsideWorkingDirectory)
    else if !start.Dir? then Err(IoError)
    else WalkEntries(wd, start, 0, recursive, filter)
  }

  /** The loop over the entries of `dir` from the `i`-th on. */
  function WalkEntries(wd: Path, dir: Node, i: nat, recursive: bool, filter: Option<seq<string>>): (r: Result<seq<Path>, Error>)
    requires dir.Dir? && i <= |dir.entries|
    ensures r.Err? ==> r.error == PathOutsideWorkingDirectory || r.error == IoError
    decreases dir, 0, |dir.entries| - i
  {
    if i == |dir.entries| then Ok([])
    else
      var e := dir.entries[i];
      var here :=
        if e.Broken() then Err(IoError)
        else if e.Dir? && recursive then WalkDir(wd, e, recursive, filter)
        else if e.File? && Keep(filter, e.path) then Ok([e.path])
        else Ok([]);
      match here
      case Err(err) => Err(err)
      case Ok(found) =>
        match WalkEntries(wd, dir, i + 1, recursive, filter)
        case Err(err) => Err(err)
        case Ok(rest) => Ok(found + rest)
  }

  /** Reference: `p` is a file listed directly in `n`, or, when walking
      recursively, in one of its sub-directories. */
  ghost predicate InTree(n: Node, p: Path, recursive: bool)
    decreases n, 0
  {
    n.Dir? && exists i :: 0 <= i < |n.entries| && Hit(n.entries[i], p, recursive)
  }

  ghost predicate Hit(e: Node, p: Path, recursive: bool)
    decreases e, 1
  {
    (e.File? && e.path == p) || (recursive && e.Dir? && InTree(e, p, recursive))
  }

  /** Reference: the walk can go through. The start is a directory in the
      working directory, and so (when walking recursively) is every
      sub-directory reached; no entry listed on the way is unreadable. */
  ghost predicate Walkable(wd: Path, n: Node, recursive: bool)
    decreases n, 1
  {
    StartsWith(n.path, wd) && n.Dir? && EntriesWalkable(wd, n, 0, recursive)
  }

  ghost predicate EntriesWalkable(wd: Path, dir: Node, i: nat, recursive: bool)
    requires dir.Dir? && i <= |dir.entries|
    decreases dir, 0, |dir.entries| - i
  {
    i == |dir.entries| ||
    (!dir.entries[i].Broken()
     && (dir.entries[i].Dir? && recursive ==> Walkable(wd, dir.entries[i], recursive))
     && EntriesWalkable(wd, dir, i + 1, recursive))
  }

  /** The walk succeeds exactly when every directory it enters is in the
      working directory and every entry it lists can be read, and it then lists exactly the files of the tree
      that pass the filter. */
  lemma {:induction false} WalkDirSpec(wd: Path, start: Node, recursive: bool, filter: Option<seq<string>>)
    ensures WalkDir(wd, start, recursive, filter).Ok? <==> Walkable(wd, start, recursive)
    ensures WalkDir(wd, start, recursive, filter).Ok? ==>
              forall p :: p in WalkDir(wd, start, recursive, filter).value <==>
                            Keep(filter, p) && InTree(start, p, recursive)
    decreases start, 1
  {
    if StartsWith(start.path, wd) && start.Dir? {
      WalkEntriesSpec(wd, start, 0, recursive, filter);
    }
  }

  lemma {:induction false} WalkEntriesSpec(wd: Path, dir: Node, i: nat, recursive: bool, filter: Option<seq<string>>)
    requires dir.Dir? && i <= |dir.entries|
    ensures WalkEntries(wd, dir, i, recursive, filter).Ok? <==> EntriesWalkable(wd, dir, i, recursive)
    ensures WalkEntries(wd, dir, i, recursive, filter).Ok? ==>
              forall p :: p in WalkEntries(wd, dir, i, recursive, filter).value <==>
                            Keep(filter, p) && exists j :: i <= j < |dir.entries| && Hit(dir.entries[j], p, recursive)
    decreases dir, 0, |dir.entries| - i
  {
    if i < |dir.entries| {
      var e := dir.entries[i];
      WalkEntriesSpec(wd, dir, i + 1, recursive, filter);
      if e.Dir? && recursive {
        WalkDirSpec(wd, e, recursive, filter);
      }
      var r := WalkEntries(wd, dir, i, recursive, filter);
      if r.Ok? {
        var rest := WalkEntries(wd, dir, i + 1, recursive, filter).value;
        forall p
          ensures p in r.value <==> Keep(filter, p) && exists j :: i <= j < |dir.entries| && Hit(dir.entries[j], p, recursive)
        {
          if p in r.value && p !in rest {
            assert Hit(e, p, recursive) && Keep(filter, p);
          }
          if Keep(filter, p) && !(exists j :: i + 1 <= j < |dir.entries| && Hit(dir.entries[j], p, recursive)) {
            if exists j :: i <= j < |dir.entries| && Hit(dir.entries[j], p, recursive) {
              var j :| i <= j < |dir.entries| && Hit(dir.entries[j], p, recursive);
              assert j == i;
            }
          }
        }
      }
    }
  }

  /** A directory in the working directory that lists an unreadable entry
      cannot be walked. */
  lemma BrokenEntryFails(wd: Path, start: Node, recursive: bool, filter: Option<seq<string>>, i: nat)
    requires start.Dir? && i < |start.entries| && start.entries[i].Broken()
    ensures WalkDir(wd, start, recursive, filter).Err?
  {
    WalkDirSpec(wd, start, recursive, filter);
    if Walkable(wd, start, recursive) {
      WalkableEntriesReadable(wd, start, 0, i, recursive);
    }
  }

  lemma {:induction false} WalkableEntriesReadable(wd: Path, dir: Node, i: nat, j: nat, recursive: bool)
    requires dir.Dir? && i <= j < |dir.entries|
    requires EntriesWalkable(wd, dir, i, recursive)
    ensures !dir.entries[j].Broken()
    decreases j - i
  {
    if i < j {
      WalkableEntriesReadable(wd, dir, i + 1, j, recursive);
    }
  }

  /** Without a filter, every file of the tree is listed. */
  lemma NoFilterKeepsEverything(wd: Path, start: Node, recursive: bool, p: Path)
    requires WalkDir(wd, start, recursive, None).Ok? && InTree(start, p, recursive)
    ensures p in WalkDir(wd, start, recursive, None).value
  {
    WalkDirSpec(wd, start, recursive, None);
  }

  /** Every listed file passes the filter. */
  lemma FilteredFilesPass(wd: Path, start: Node, recursive: bool, filter: seq<string>, p: Path)
    requires WalkDir(wd, start, recursive, Some(filter)).Ok?
    requires p in WalkDir(wd, start, recursive, Some(filter)).value
    ensures Extension(p).GetOr("") in filter
  {
    WalkDirSpec(wd, start, recursive, Some(filter));
  }
}
