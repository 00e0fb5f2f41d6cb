/** The intermediate revision's cache (`src/lib/cache.rs`): a TOML table of
    internal values keyed by `hash_string(key)`, a public user table that
    the workspace reads and writes with raw keys and that is persisted under
    "workspace", and raw files named `hash_string(name) + ".file"` in the
    directory `<workspace>/cache`. */
module LibCache {
  import opened Wrappers
  import opened Errors
  import opened Toml
  import opened CacheStore
  import opened Util

  datatype Cache = Cache(userValues: Table, toml: Table)

  type Dir = Store<Bytes>

  /** `Cache::new`: the cache file's table and its "workspace" sub-table
      (empty when absent); an unparsable file or a non-table "workspace"
      entry is an error. */
  function New(d: Dir): (r: Result<(Cache, Dir), Error>)
    ensures r.Ok? <==> Load(d).Ok?
    ensures r.Ok? ==> r.value.0 == Cache(Load(d).value.userValues, Load(d).value.toml)
    ensures r.Ok? && WorkspaceKey !in r.value.0.toml ==> r.value.0.userValues == map[]
    ensures r.Ok? ==> r.value.1.entries == d.entries
  {
    var loaded :- Load(d);
    Ok((Cache(loaded.userValues, loaded.toml), loaded.store))
  }

  /** `set_value`: the value is stored under the key's hash only; the user
      table and every entry under another hash are untouched. */
  function SetValue(c: Cache, h: Hasher, key: string, v: Value): (r: Cache)
    ensures GetValue(r, h, key) == Some(v) && CheckKeyExists(r, h, key)
    ensures key !in r.toml || key == h(key) || key in c.toml
    ensures forall k :: h(k) != h(key) ==> GetValue(r, h, k) == GetValue(c, h, k)
    ensures r.userValues == c.userValues
  {
    c.(toml := c.toml[h(key) := v])
  }

  /** `get_value`: the entry under the key's hash, if any. */
  function GetValue(c: Cache, h: Hasher, key: string): (r: Option<Value>)
    ensures r.Some? <==> h(key) in c.toml
    ensures r.Some? ==> c.toml[h(key)] == r.value
  {
    if h(key) in c.toml then Some(c.toml[h(key)]) else None
  }

  /** `pop_value`: the key's entry is gone, every other hash keeps its
      entry, and the user table is untouched. */
  function PopValue(c: Cache, h: Hasher, key: string): (r: Cache)
    ensures !CheckKeyExists(r, h, key) && GetValue(r, h, key) == None
    ensures forall k :: h(k) != h(key) ==> GetValue(r, h, k) == GetValue(c, h, k)
    ensures r.userValues == c.userValues
  {
    c.(toml := c.toml - {h(key)})
  }

  /** `check_key_exists` agrees with `get_value`. */
  function CheckKeyExists(c: Cache, h: Hasher, key: string): (b: bool)
    ensures b <==> GetValue(c, h, key).Some?
  {
    h(key) in c.toml
  }

  /** With an injective hash, setting or popping one key leaves every other
      key's value as it was. */
  lemma OtherKeysUntouched(c: Cache, h: Hasher, key: string, other: string, v: Value)
    requires Injective(h) && other != key
    ensures GetValue(SetValue(c, h, key, v), h, other) == GetValue(c, h, other)
    ensures GetValue(PopValue(c, h, key), h, other) == GetValue(c, h, other)
  {
    assert h(other) != h(key);
  }

  /** `write_file`: the bytes are written raw; the result is the file's
      name in the cache directory. A directory of that name makes it fail. */
  function WriteFile(d: Dir, h: Hasher, name: string, data: Bytes): (r: Result<(string, Dir), Error>)
    ensures r.Ok? <==> Write(d, FileName(h, name), data).Ok?
    ensures r.Ok? ==> r.value.0 == FileName(h, name) && r.value.1 == Write(d, FileName(h, name), data).value
    ensures r.Ok? ==> CheckFileExists(r.value.1, h, name)
    ensures r.Err? ==> r.error == IoError
  {
    var d' :- Write(d, FileName(h, name), data);
    Ok((FileName(h, name), d'))
  }

  /** `read_file`: the raw bytes, or an I/O error when nothing (or a
      directory) is there. */
  function ReadFile(d: Dir, h: Hasher, name: string): (r: Result<Bytes, Error>)
    ensures r.Ok? ==> CheckFileExists(d, h, name)
    ensures r.Ok? <==> FileName(h, name) in d.entries && d.entries[FileName(h, name)].File?
    ensures r.Err? ==> r.error == IoError
  {
    Read(d, FileName(h, name))
  }

  /** Reading back what `write_file` wrote gives the same bytes. */
  lemma WriteFileThenReadFile(d: Dir, h: Hasher, name: string, data: Bytes)
    requires WriteFile(d, h, name, data).Ok?
    ensures ReadFile(WriteFile(d, h, name, data).value.1, h, name) == Ok(data)
  {
    WriteThenRead(d, FileName(h, name), data);
  }

  /** `flush`: the user table is stored under "workspace" in the cache's own
      table, and that table is what the cache file now holds. */
  function Flush(c: Cache, d: Dir): (r: (Cache, Dir))
    ensures r.0.userValues == c.userValues
    ensures WorkspaceKey in r.0.toml && r.0.toml[WorkspaceKey] == Table(c.userValues)
    ensures r.1 == d.(toml := Parsed(r.0.toml))
    ensures forall k :: k != WorkspaceKey ==> (k in r.0.toml <==> k in c.toml)
    ensures forall k :: k != WorkspaceKey && k in c.toml ==> r.0.toml[k] == c.toml[k]
  {
    var t := WithUserValues(c.toml, c.userValues);
    (c.(toml := t), d.(toml := Parsed(t)))
  }

  /** Opening the cache again after a flush restores exactly the user
      table that was flushed, and every internal value whose hash is not
      the reserved key. */
  lemma FlushThenNew(c: Cache, d: Dir, h: Hasher, key: string)
    requires h(key) != WorkspaceKey
    ensures var f := Flush(c, d);
            && New(f.1).Ok?
            && New(f.1).value.0.userValues == c.userValues
            && GetValue(New(f.1).value.0, h, key) == GetValue(c, h, key)
  {
    FlushThenLoad(d, c.toml, c.userValues);
  }
}
