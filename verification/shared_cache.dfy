/** The newest revision's cache (`src/lib/util/cache.rs`). Its two tables
    live behind shared, lockable cells (`Arc<Mutex<Table>>`), so a clone of
    the cache reads and writes the same tables as the original. The cells
    are modelled as an explicit heap of tables and a cache as the pair of
    cell indices it holds; locking always succeeds (single-threaded use).
    Files live in `<numake directory>/.cache`, next to the build cache's
    clean-sets; blobs written here are bzip2-compressed. */
module SharedCache {
  import opened Wrappers
  import opened Errors
  import opened Toml
  import opened CacheStore
  import opened Util

  /** What a file in the cache directory holds: the bzip2 stream of some
      bytes, the bitcode encoding of a set of strings, or anything else. */
  datatype Blob = Compressed(data: Bytes) | Encoded(names: set<string>) | Other(raw: Bytes)

  type Dir = Store<Blob>

  /** The shared cells; a cell index is a handle to one `Arc<Mutex<Table>>`. */
  type Heap = seq<Table>

  datatype Cache = Cache(userCell: nat, tomlCell: nat)

  /** A cache's two cells exist and are distinct. */
  predicate Valid(heap: Heap, c: Cache) {
    c.userCell < |heap| && c.tomlCell < |heap| && c.userCell != c.tomlCell
  }

  /** `Cache::new`: two fresh cells holding the loaded table and its
      "workspace" sub-table; cells that already existed are untouched. */
  function New(heap: Heap, d: Dir): (r: Result<(Cache, Heap, Dir), Error>)
    ensures r.Ok? <==> Load(d).Ok?
    ensures r.Ok? ==> Valid(r.value.1, r.value.0)
    ensures r.Ok? ==> |r.value.1| == |heap| + 2 && r.value.1[..|heap|] == heap
    ensures r.Ok? ==> r.value.1[r.value.0.tomlCell] == Load(d).value.toml
    ensures r.Ok? ==> UserValues(r.value.1, r.value.0) == Load(d).value.userValues
    ensures r.Ok? ==> r.value.2.entries == d.entries
  {
    var loaded :- Load(d);
    Ok((Cache(|heap| + 1, |heap|), heap + [loaded.toml, loaded.userValues], loaded.store))
  }

  /** The current user table of a cache. */
  function UserValues(heap: Heap, c: Cache): Table
    requires Valid(heap, c)
  {
    heap[c.userCell]
  }

  /** `clone`: the copy refers to the very same cells. */
  function Clone(c: Cache): (r: Cache)
    ensures r.userCell == c.userCell && r.tomlCell == c.tomlCell
  {
    Cache(c.userCell, c.tomlCell)
  }

  /** Lookup of a hashed key in one cell. */
  function Lookup(heap: Heap, cell: nat, h: Hasher, key: string): (r: Option<Value>)
    requires cell < |heap|
    ensures r.Some? <==> h(key) in heap[cell]
    ensures r.Some? ==> heap[cell][h(key)] == r.value
  {
    if h(key) in heap[cell] then Some(heap[cell][h(key)]) else None
  }

  /** `set_value`: only the internal cell changes, at the key's hash. */
  function SetValue(heap: Heap, c: Cache, h: Hasher, key: string, v: Value): (r: Heap)
    requires Valid(heap, c)
    ensures |r| == |heap| && Valid(r, c)
    ensures GetValue(r, c, h, key) == Some(v) && CheckKeyExists(r, c, h, key)
    ensures forall k :: h(k) != h(key) ==> GetValue(r, c, h, k) == GetValue(heap, c, h, k)
    ensures forall i :: 0 <= i < |heap| && i != c.tomlCell ==> r[i] == heap[i]
  {
    heap[c.tomlCell := heap[c.tomlCell][h(key) := v]]
  }

  /** `get_value`. */
  function GetValue(heap: Heap, c: Cache, h: Hasher, key: string): (r: Option<Value>)
    requires Valid(heap, c)
    ensures r == Lookup(heap, c.tomlCell, h, key)
  {
    Lookup(heap, c.tomlCell, h, key)
  }

  /** `pop_value`: the key's hash is gone from the internal cell. */
  function PopValue(heap: Heap, c: Cache, h: Hasher, key: string): (r: Heap)
    requires Valid(heap, c)
    ensures |r| == |heap| && Valid(r, c)
    ensures GetValue(r, c, h, key) == None && !CheckKeyExists(r, c, h, key)
    ensures forall k :: h(k) != h(key) ==> GetValue(r, c, h, k) == GetValue(heap, c, h, k)
    ensures forall i :: 0 <= i < |heap| && i != c.tomlCell ==> r[i] == heap[i]
  {
    heap[c.tomlCell := heap[c.tomlCell] - {h(key)}]
  }

  /** `check_key_exists` agrees with `get_value`. */
  function CheckKeyExists(heap: Heap, c: Cache, h: Hasher, key: string): (b: bool)
    requires Valid(heap, c)
    ensures b <==> GetValue(heap, c, h, key).Some?
  {
    h(key) in heap[c.tomlCell]
  }

  /** `set_user_value`: the user cell gains the value under the key's hash;
      no other cell changes. */
  function SetUserValue(heap: Heap, c: Cache, h: Hasher, key: string, v: Value): (r: Heap)
    requires Valid(heap, c)
    ensures |r| == |heap| && Valid(r, c)
    ensures GetUserValue(r, c, h, key) == Some(v)
    ensures forall k :: h(k) != h(key) ==> GetUserValue(r, c, h, k) == GetUserValue(heap, c, h, k)
    ensures forall i :: 0 <= i < |heap| && i != c.userCell ==> r[i] == heap[i]
  {
    heap[c.userCell := heap[c.userCell][h(key) := v]]
  }

  /** `get_user_value`. */
  function GetUserValue(heap: Heap, c: Cache, h: Hasher, key: string): (r: Option<Value>)
    requires Valid(heap, c)
    ensures r == Lookup(heap, c.userCell, h, key)
  {
    Lookup(heap, c.userCell, h, key)
  }

  /** `pop_user_value`. */
  function PopUserValue(heap: Heap, c: Cache, h: Hasher, key: string): (r: Heap)
    requires Valid(heap, c)
    ensures |r| == |heap| && Valid(r, c)
    ensures GetUserValue(r, c, h, key) == None
    ensures forall k :: h(k) != h(key) ==> GetUserValue(r, c, h, k) == GetUserValue(heap, c, h, k)
    ensures forall i :: 0 <= i < |heap| && i != c.userCell ==> r[i] == heap[i]
  {
    heap[c.userCell := heap[c.userCell] - {h(key)}]
  }

  /** The two tables are separate: user-value operations never change what
      `get_value` sees, and internal-value operations never change what
      `get_user_value` sees. */
  lemma TablesAreSeparate(heap: Heap, c: Cache, h: Hasher, key: string, other: string, v: Value)
    requires Valid(heap, c)
    ensures GetValue(SetUserValue(heap, c, h, key, v), c, h, other) == GetValue(heap, c, h, other)
    ensures GetValue(PopUserValue(heap, c, h, key), c, h, other) == GetValue(heap, c, h, other)
    ensures GetUserValue(SetValue(heap, c, h, key, v), c, h, other) == GetUserValue(heap, c, h, other)
    ensures GetUserValue(PopValue(heap, c, h, key), c, h, other) == GetUserValue(heap, c, h, other)
  {
  }

  /** A value set through a clone is seen through the original, in both
      tables, and a pop through a clone removes it for the original. */
  lemma CloneShares(heap: Heap, c: Cache, h: Hasher, key: string, v: Value)
    requires Valid(heap, c)
    ensures GetValue(SetValue(heap, Clone(c), h, key, v), c, h, key) == Some(v)
    ensures GetUserValue(SetUserValue(heap, Clone(c), h, key, v), c, h, key) == Some(v)
    ensures GetUserValue(PopUserValue(heap, Clone(c), h, key), c, h, key) == None
    ensures GetValue(PopValue(heap, Clone(c), h, key), c, h, key) == None
  {
  }

  /** `flush`: the user table goes into the internal cell under the raw key
      "workspace", and the whole internal table is written to the cache
      file. */
  function Flush(heap: Heap, c: Cache, d: Dir): (r: (Heap, Dir))
    requires Valid(heap, c)
    ensures |r.0| == |heap| && Valid(r.0, c)
    ensures WorkspaceKey in r.0[c.tomlCell] && r.0[c.tomlCell][WorkspaceKey] == Table(UserValues(heap, c))
    ensures UserValues(r.0, c) == UserValues(heap, c)
    ensures r.1 == d.(toml := Parsed(r.0[c.tomlCell]))
    ensures forall i :: 0 <= i < |heap| && i != c.tomlCell ==> r.0[i] == heap[i]
  {
    var t := WithUserValues(heap[c.tomlCell], heap[c.userCell]);
    (heap[c.tomlCell := t], d.(toml := Parsed(t)))
  }

  /** A cache opened on the flushed directory starts with exactly the user
      values that were flushed, and with every internal value whose hash is
      not the reserved key. */
  lemma FlushThenNew(heap: Heap, c: Cache, d: Dir, h: Hasher, key: string)
    requires Valid(heap, c)
    requires h(key) != WorkspaceKey
    ensures var f := Flush(heap, c, d);
            && New(f.0, f.1).Ok?
            && var (c', heap', _) := New(f.0, f.1).value;
               && UserValues(heap', c') == UserValues(heap, c)
               && GetValue(heap', c', h, key) == GetValue(heap, c, h, key)
  {
    var f := Flush(heap, c, d);
    FlushThenLoad(d, heap[c.tomlCell], heap[c.userCell]);
  }

  /** `write_file`: the data is stored compressed under the hashed name.
      Creating the file fails when a directory has that name. */
  function WriteFile(d: Dir, h: Hasher, name: string, data: Bytes): (r: Result<(string, Dir), Error>)
    ensures r.Ok? <==> !(FileName(h, name) in d.entries && d.entries[FileName(h, name)].Directory?)
    ensures r.Ok? ==> r.value.0 == FileName(h, name) && CheckFileExists(r.value.1, h, name)
    ensures r.Ok? ==> r.value.1.entries == d.entries[FileName(h, name) := File(Compressed(data))]
    ensures r.Ok? ==> r.value.1.toml == d.toml
    ensures r.Err? ==> r.error == IoError
  {
    var d' :- Write(d, FileName(h, name), Compressed(data));
    Ok((FileName(h, name), d'))
  }

  /** `read_file`: open and decompress. A missing file, a directory, or a
      file that is not a bzip2 stream is an I/O error. */
  function ReadFile(d: Dir, h: Hasher, name: string): (r: Result<Bytes, Error>)
    ensures r.Ok? <==> (FileName(h, name) in d.entries && d.entries[FileName(h, name)].File?
                        && d.entries[FileName(h, name)].content.Compressed?)
    ensures r.Ok? ==> d.entries[FileName(h, name)] == File(Compressed(r.value))
    ensures r.Err? ==> r.error == IoError
  {
    var blob :- Read(d, FileName(h, name));
    match blob
    case Compressed(data) => Ok(data)
    case _ => Err(IoError)
  }

  /** Decompressing what was compressed gives the data back. */
  lemma WriteFileThenReadFile(d: Dir, h: Hasher, name: string, data: Bytes)
    requires WriteFile(d, h, name, data).Ok?
    ensures ReadFile(WriteFile(d, h, name, data).value.1, h, name) == Ok(data)
  {
  }
}
