/** The TOML values the caches hold. Parsing and printing are taken to be
    inverse (the cache file holds the table itself), so only the tree of
    values is modelled. */
module Toml {
  import opened Wrappers
  import opened Errors

  datatype Value =
    | Str(s: string)
    | Int(i: int)
    | Bool(b: bool)
    | Array(items: seq<Value>)
    | Table(t: map<string, Value>)

  type Table = map<string, Value>

  /** The raw key under which the user-value table is persisted. */
  const WorkspaceKey: string := "workspace"

  /** How both cache revisions recover the user table when they open the
      cache file: the "workspace" sub-table when the key is present (a
      non-table value there aborts, `as_table().unwrap()`), an empty table
      otherwise. */
  function UserTableOf(table: Table): (r: Result<Table, Error>)
    ensures WorkspaceKey !in table ==> r == Ok(map[])
    ensures WorkspaceKey in table && table[WorkspaceKey].Table? ==> r == Ok(table[WorkspaceKey].t)
    ensures WorkspaceKey in table && !table[WorkspaceKey].Table? ==> r.Err? && r.error.Panic?
  {
    if WorkspaceKey !in table then Ok(map[])
    else if table[WorkspaceKey].Table? then Ok(table[WorkspaceKey].t)
    else Err(Panic("cache.toml: \"workspace\" is not a table"))
  }
}
