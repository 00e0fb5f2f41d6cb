/** The newest revision's build cache (`src/lib/util/build_cache.rs`): named
    sets of strings, each stored bitcode-encoded in `<name>.bcache` in the
    same directory as the cache's blobs. The name is used raw, not hashed. */
module BuildCache {
  import opened Wrappers
  import opened Errors
  import opened CacheStore
  import opened SharedCache

  /** The file a named set lives in. */
  function SetFileName(name: string): string {
    name + ".bcache"
  }

  /** `write_set`: the encoded set replaces whatever file had that name; a
      directory of that name makes the write fail. */
  function WriteSet(d: Dir, name: string, s: set<string>): (r: Result<Dir, Error>)
    ensures r.Ok? <==> !(SetFileName(name) in d.entries && d.entries[SetFileName(name)].Directory?)
    ensures r.Ok? ==> r.value.entries == d.entries[SetFileName(name) := File(Encoded(s))]
    ensures r.Ok? ==> r.value.toml == d.toml
    ensures r.Err? ==> r.error == IoError
  {
    Write(d, SetFileName(name), Encoded(s))
  }

  /** `read_set`: a set never written is empty; a file that does not decode
      as a set also gives the empty set; only a failure to read the file at
      all (here: a directory of that name) is an error. */
  function ReadSet(d: Dir, name: string): (r: Result<set<string>, Error>)
    ensures SetFileName(name) !in d.entries ==> r == Ok({})
    ensures r.Err? <==> SetFileName(name) in d.entries && d.entries[SetFileName(name)].Directory?
    ensures r.Err? ==> r.error == IoError
    ensures r.Ok? && r.value != {} ==> d.entries[SetFileName(name)] == File(Encoded(r.value))
    ensures (SetFileName(name) in d.entries && d.entries[SetFileName(name)].File?
             && !d.entries[SetFileName(name)].content.Encoded?) ==> r == Ok({})
  {
    if SetFileName(name) !in d.entries then Ok({})
    else
      var blob :- Read(d, SetFileName(name));
      match blob
      case Encoded(s) => Ok(s)
      case _ => Ok({})
  }

  /** Reading back a set that was written gives the same set. */
  lemma WriteSetThenReadSet(d: Dir, name: string, s: set<string>)
    requires WriteSet(d, name, s).Ok?
    ensures ReadSet(WriteSet(d, name, s).value, name) == Ok(s)
  {
  }

  /** Sets of different names are stored in different files, so writing
      one never changes what another reads. */
  lemma NamesAreIndependent(d: Dir, name: string, other: string, s: set<string>)
    requires WriteSet(d, name, s).Ok? && name != other
    ensures ReadSet(WriteSet(d, name, s).value, other) == ReadSet(d, other)
  {
    assert name == SetFileName(name)[..|name|];
    assert other == SetFileName(other)[..|other|];
  }

  /** A set file never has a blob's name (".bcache" and ".file" differ two
      characters from the end), so the build cache and the cache's blobs
      never overwrite each other. */
  lemma SetFilesAreNotBlobs(name: string, hashed: string)
    ensures SetFileName(name) != hashed + ".file"
  {
    var a := SetFileName(name);
    var b := hashed + ".file";
    assert a[|a| - 2] == 'h';
    assert b[|b| - 2] == 'l';
  }

  /** Writing a set leaves every blob of the cache readable as before. */
  lemma WriteSetKeepsBlobs(d: Dir, name: string, s: set<string>, h: Util.Hasher, blob: string)
    requires WriteSet(d, name, s).Ok?
    ensures ReadFile(WriteSet(d, name, s).value, h, blob) == ReadFile(d, h, blob)
  {
    SetFilesAreNotBlobs(name, h(blob));
  }
}
