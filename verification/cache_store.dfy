/** The cache directory as both cache revisions see it: the TOML file
    `cache.toml` and a flat set of named entries, each a file with some
    content or a directory. The directory itself is created on demand by
    the source; creation failures are not modelled. */
module CacheStore {
  import opened Wrappers
  import opened Errors
  import opened Toml
  import opened Util

  type Bytes = seq<bv8>

  datatype Entry<B> = File(content: B) | Directory

  /** `cache.toml`: not yet written, holding a table, or holding text that
      does not parse as TOML. */
  datatype TomlFile = Absent | Parsed(table: Table) | Unparsable

  datatype Store<B> = Store(toml: TomlFile, entries: map<string, Entry<B>>)

  /** What `Cache::new` reads: the whole table (an absent file is first
      written empty, which parses as an empty table), the user table taken
      from its "workspace" entry, and the directory after the write. */
  datatype Loaded<B> = Loaded(toml: Table, userValues: Table, store: Store<B>)

  function Load<B>(s: Store<B>): (r: Result<Loaded<B>, Error>)
    ensures s.toml.Absent? ==> r == Ok(Loaded(map[], map[], s.(toml := Parsed(map[]))))
    ensures s.toml.Unparsable? ==> r == Err(ParseError)
    ensures s.toml.Parsed? ==>
              && (r.Ok? <==> UserTableOf(s.toml.table).Ok?)
              && (r.Ok? ==> r.value == Loaded(s.toml.table, UserTableOf(s.toml.table).value, s))
    ensures r.Ok? ==> r.value.store.entries == s.entries && r.value.store.toml == Parsed(r.value.toml)
  {
    match s.toml
    case Absent => Ok(Loaded(map[], map[], s.(toml := Parsed(map[]))))
    case Unparsable => Err(ParseError)
    case Parsed(t) =>
      var user :- UserTableOf(t);
      Ok(Loaded(t, user, s))
  }

  /** What `flush` writes: the table with the user table stored under the
      raw key "workspace", replacing whatever was there. */
  function WithUserValues(toml: Table, user: Table): (t: Table)
    ensures WorkspaceKey in t && t[WorkspaceKey] == Table(user)
    ensures forall k :: k != WorkspaceKey ==> (k in t <==> k in toml)
    ensures forall k :: k in toml && k != WorkspaceKey ==> t[k] == toml[k]
  {
    toml[WorkspaceKey := Table(user)]
  }

  /** Flushing then loading again gives back exactly the user table that
      was flushed, and every other entry of the table. */
  lemma FlushThenLoad<B>(s: Store<B>, toml: Table, user: Table)
    ensures var flushed := s.(toml := Parsed(WithUserValues(toml, user)));
            && Load(flushed).Ok?
            && Load(flushed).value.userValues == user
            && Load(flushed).value.toml == WithUserValues(toml, user)
  {
  }

  /** Write a file entry (`fs::write` / `File::create`): an existing
      directory of that name makes the write fail; anything else is
      replaced. */
  function Write<B>(s: Store<B>, name: string, content: B): (r: Result<Store<B>, Error>)
    ensures r.Err? <==> name in s.entries && s.entries[name].Directory?
    ensures r.Err? ==> r.error == IoError
    ensures r.Ok? ==> r.value.toml == s.toml
    ensures r.Ok? ==> name in r.value.entries && r.value.entries[name] == File(content)
    ensures r.Ok? ==> forall n :: n != name ==> (n in r.value.entries <==> n in s.entries)
    ensures r.Ok? ==> forall n :: n != name && n in s.entries ==> r.value.entries[n] == s.entries[n]
  {
    if name in s.entries && s.entries[name].Directory? then Err(IoError)
    else Ok(s.(entries := s.entries[name := File(content)]))
  }

  /** Read a file entry back (`fs::read` / `File::open`): a missing entry
      or a directory is an I/O error. */
  function Read<B>(s: Store<B>, name: string): (r: Result<B, Error>)
    ensures r.Ok? <==> name in s.entries && s.entries[name].File?
    ensures r.Ok? ==> s.entries[name] == File(r.value)
    ensures r.Err? ==> r.error == IoError
  {
    if name in s.entries && s.entries[name].File? then Ok(s.entries[name].content)
    else Err(IoError)
  }

  /** A write that succeeds is read back unchanged. */
  lemma WriteThenRead<B>(s: Store<B>, name: string, content: B)
    requires Write(s, name, content).Ok?
    ensures Read(Write(s, name, content).value, name) == Ok(content)
  {
  }

  /** `path.exists()`: a file or a directory of that name. */
  predicate Exists<B>(s: Store<B>, name: string) {
    name in s.entries
  }

  /** `get_dir`'s `create_dir_all` when nothing is there yet; an existing
      entry, even a file, is left as it is. */
  function MakeDir<B>(s: Store<B>, name: string): (r: Store<B>)
    ensures Exists(r, name)
    ensures name in s.entries ==> r == s
    ensures name !in s.entries ==> r.entries == s.entries[name := Directory] && r.toml == s.toml
  {
    if name in s.entries then s else s.(entries := s.entries[name := Directory])
  }

  /** Creating a directory twice is creating it once. */
  lemma MakeDirIdempotent<B>(s: Store<B>, name: string)
    ensures MakeDir(MakeDir(s, name), name) == MakeDir(s, name)
  {
  }

  // ----- Hashed names, shared by both cache revisions -----

  /** The name of a blob in the cache directory. */
  function FileName(h: Hasher, name: string): string {
    h(name) + ".file"
  }

  /** `check_file_exists`: anything exists under the blob's name. */
  function CheckFileExists<B>(d: Store<B>, h: Hasher, name: string): (b: bool)
    ensures b <==> FileName(h, name) in d.entries
  {
    Exists(d, FileName(h, name))
  }

  /** `get_dir`: the directory named by the key's hash, created when
      nothing is there. */
  function GetDir<B>(d: Store<B>, h: Hasher, name: string): (r: (string, Store<B>))
    ensures r.0 == h(name)
    ensures CheckDirExists(r.1, h, name)
    ensures h(name) in d.entries ==> r.1 == d
    ensures r.1.toml == d.toml
  {
    (h(name), MakeDir(d, h(name)))
  }

  /** `check_dir_exists`. */
  function CheckDirExists<B>(d: Store<B>, h: Hasher, name: string): (b: bool)
    ensures b <==> h(name) in d.entries
  {
    Exists(d, h(name))
  }

  /** Asking for the same directory twice gives the same path and changes
      nothing the second time. */
  lemma GetDirTwice<B>(d: Store<B>, h: Hasher, name: string)
    ensures GetDir(GetDir(d, h, name).1, h, name) == GetDir(d, h, name)
  {
    MakeDirIdempotent(d, h(name));
  }
}
