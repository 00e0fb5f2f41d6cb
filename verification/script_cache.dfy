/** The size-keyed script cache that every workspace revision applies to
    the build script it processes and to the scripts it `load`s: the
    compiled bytecode of a script is stored as a blob named after the
    script's path, next to the script's size as a decimal string. The
    bytecode is reused only while the recorded size matches. Running Lua
    and compiling it are parameters: `run` executes a chunk (source text or
    bytecode) and `compile` is the bytecode compiler (a total one in the
    older revisions, whose compiler cannot fail). */
module ScriptCache {
  import opened Wrappers
  import opened Errors
  import opened Toml
  import opened CacheStore
  import opened Util
  import opened Paths
  import opened LibCache

  /** The cache can be used: the key is recorded, a blob of that name
      exists, and the recorded value is the current size. */
  predicate UseCache(c: Cache, d: Dir, h: Hasher, name: string, size: string) {
    && CheckKeyExists(c, h, name)
    && CheckFileExists(d, h, name)
    && GetValue(c, h, name) == Some(Str(size))
  }

  /** Which chunk the script was run from. */
  datatype Chunk = Cached(bytecode: Bytes) | Source(text: Bytes)

  /** What a successful run leaves: what the script produced, the chunk it
      ran from, and the cache and directory afterwards. */
  datatype Refreshed<S> = Refreshed(state: S, chunk: Chunk, cache: Cache, dir: Dir)

  /** Run a script through the cache. On a hit the stored bytecode runs and
      nothing is written. Otherwise the source runs first; only when that
      succeeds is it compiled, the bytecode written and the size recorded. */
  function RunScript<S>(c: Cache, d: Dir, h: Hasher, name: string, size: string, source: Bytes,
                        run: Bytes -> Result<S, Error>, compile: Bytes -> Result<Bytes, Error>)
    : (r: Result<Refreshed<S>, Error>)
    ensures r.Ok? ==> (r.value.chunk.Cached? <==> UseCache(c, d, h, name, size))
    ensures r.Ok? && r.value.chunk.Cached? ==>
              && ReadFile(d, h, name) == Ok(r.value.chunk.bytecode)
              && r.value.cache == c && r.value.dir == d
    ensures r.Ok? && r.value.chunk.Source? ==>
              && r.value.chunk.text == source
              && compile(source).Ok?
              && ReadFile(r.value.dir, h, name) == Ok(compile(source).value)
              && GetValue(r.value.cache, h, name) == Some(Str(size))
              && r.value.cache.userValues == c.userValues
    ensures r.Ok? ==> run(if r.value.chunk.Cached? then r.value.chunk.bytecode else source) == Ok(r.value.state)
    ensures !UseCache(c, d, h, name, size) && run(source).Err? ==> r == Err(run(source).error)
  {
    if UseCache(c, d, h, name, size) then
      var bytecode :- ReadFile(d, h, name);
      var state :- run(bytecode);
      Ok(Refreshed(state, Cached(bytecode), c, d))
    else
      var state :- run(source);
      var bytecode :- compile(source);
      var written :- WriteFile(d, h, name, bytecode);
      WriteFileThenReadFile(d, h, name, bytecode);
      Ok(Refreshed(state, Source(source), SetValue(c, h, name, Str(size)), written.1))
  }

  /** A changed size always runs the source, whatever is stored. */
  lemma SizeChangeRunsSource<S>(c: Cache, d: Dir, h: Hasher, name: string, size: string, recorded: string,
                                source: Bytes, run: Bytes -> Result<S, Error>, compile: Bytes -> Result<Bytes, Error>)
    requires GetValue(c, h, name) == Some(Str(recorded)) && recorded != size
    requires RunScript(c, d, h, name, size, source, run, compile).Ok?
    ensures RunScript(c, d, h, name, size, source, run, compile).value.chunk == Source(source)
  {
  }

  /** After any successful run the cache is warm for the same size. */
  lemma AfterRunCacheIsWarm<S>(c: Cache, d: Dir, h: Hasher, name: string, size: string,
                               source: Bytes, run: Bytes -> Result<S, Error>, compile: Bytes -> Result<Bytes, Error>)
    requires RunScript(c, d, h, name, size, source, run, compile).Ok?
    ensures var f := RunScript(c, d, h, name, size, source, run, compile).value;
            UseCache(f.cache, f.dir, h, name, size)
  {
  }

  /** Round trip: once the source has run and been stored, running again
      with the same size replays exactly the compiled source, touches
      neither the cache nor the directory, and looks at neither the source
      text nor the compiler. */
  lemma SecondRunReplaysCompiled<S>(c: Cache, d: Dir, h: Hasher, name: string, size: string,
                                    source: Bytes, run: Bytes -> Result<S, Error>, compile: Bytes -> Result<Bytes, Error>,
                                    source2: Bytes, run2: Bytes -> Result<S, Error>, compile2: Bytes -> Result<Bytes, Error>)
    requires RunScript(c, d, h, name, size, source, run, compile).Ok?
    requires RunScript(c, d, h, name, size, source, run, compile).value.chunk.Source?
    ensures var f := RunScript(c, d, h, name, size, source, run, compile).value;
            var bytecode := compile(source).value;
            RunScript(f.cache, f.dir, h, name, size, source2, run2, compile2) ==
              match run2(bytecode)
              case Ok(s) => Ok(Refreshed(s, Cached(bytecode), f.cache, f.dir))
              case Err(e) => Err(e)
  {
    var f := RunScript(c, d, h, name, size, source, run, compile).value;
    AfterRunCacheIsWarm(c, d, h, name, size, source, run, compile);
    assert ReadFile(f.dir, h, name) == Ok(compile(source).value);
  }

  /** `load`: the path is joined onto the working directory and must stay
      inside it and exist, else `PathOutsideWorkingDirectory`. The bytecode
      comes from the cache when the size still matches; otherwise the file
      is read and compiled, the bytecode stored and the size recorded, and
      the fresh bytecode returned. Nothing is run here. */
  function LoadScript(c: Cache, d: Dir, h: Hasher, wd: Path, path: string,
                      present: Path -> bool, sizeOf: Path -> string, read: Path -> Result<Bytes, Error>,
                      compile: Bytes -> Result<Bytes, Error>)
    : (r: Result<(Bytes, Cache, Dir), Error>)
    ensures var file := Join(wd, Parse(path));
            !(StartsWith(file, wd) && present(file)) ==> r == Err(PathOutsideWorkingDirectory)
    ensures var file := Join(wd, Parse(path));
            r.Ok? && UseCache(c, d, h, Render(file), sizeOf(file)) ==>
              ReadFile(d, h, Render(file)) == Ok(r.value.0) && r.value.1 == c && r.value.2 == d
    ensures var file := Join(wd, Parse(path));
            r.Ok? && !UseCache(c, d, h, Render(file), sizeOf(file)) ==>
              && read(file).Ok? && compile(read(file).value) == Ok(r.value.0)
              && ReadFile(r.value.2, h, Render(file)) == Ok(r.value.0)
              && GetValue(r.value.1, h, Render(file)) == Some(Str(sizeOf(file)))
  {
    var file := Join(wd, Parse(path));
    if !(StartsWith(file, wd) && present(file)) then Err(PathOutsideWorkingDirectory)
    else
      var name := Render(file);
      if UseCache(c, d, h, name, sizeOf(file)) then
        var bytecode :- ReadFile(d, h, name);
        Ok((bytecode, c, d))
      else
        var text :- read(file);
        var bytecode :- compile(text);
        var written :- WriteFile(d, h, name, bytecode);
        WriteFileThenReadFile(d, h, name, bytecode);
        Ok((bytecode, SetValue(c, h, name, Str(sizeOf(file))), written.1))
  }

  /** Loading the same file twice: the second load returns the same
      bytecode from the cache, without reading or compiling again. */
  lemma LoadTwice(c: Cache, d: Dir, h: Hasher, wd: Path, path: string,
                  present: Path -> bool, sizeOf: Path -> string, read: Path -> Result<Bytes, Error>,
                  compile: Bytes -> Result<Bytes, Error>,
                  read2: Path -> Result<Bytes, Error>, compile2: Bytes -> Result<Bytes, Error>)
    requires LoadScript(c, d, h, wd, path, present, sizeOf, read, compile).Ok?
    ensures var first := LoadScript(c, d, h, wd, path, present, sizeOf, read, compile).value;
            LoadScript(first.1, first.2, h, wd, path, present, sizeOf, read2, compile2) == Ok(first)
  {
  }
}
