# numake, modelled in Dafny

numake is a build orchestrator for C and C++ projects driven by a Lua
script. The script declares targets: a MinGW/GCC target, an MSVC target,
a generic compiler/linker pair, or a custom target wrapping Lua
callbacks. numake then compiles each target's sources, links them,
copies its assets into the output directory, and caches compiled
scripts and build results between runs.

This project models the core of three successive revisions of numake side
by side, one Dafny module per source component:

- the newest library (`src/lib/compilers`, `src/lib/data`, `src/lib/util`):
  `SourceFiles`, `ProjectData`, `Toolchain`, `GenericCompiler`,
  `MinGWCompiler`, `MsvcCompiler`, `MsvcEnv`, `SharedCache`, `BuildCache`;
- the intermediate revision (`src/lib/target`, `src/lib/workspace.rs`,
  `src/lib/cache.rs`, `src/targets`, `src/workspace.rs`): `LibTarget`,
  `LibWorkspace`, `Workspaces`, `ScriptCache`, `Walk`, `LibCache`,
  `Targets`, `TargetsWorkspace`, `Sandbox`, and `CustomTargets` for the
  custom target both `src/lib/target` and `src/targets` define;
- the oldest revisions (`src/lua_workspace.rs`, `src/generic_target.rs`,
  `src/msvc_target.rs`, `src/target.rs`, `src/lua_file.rs`,
  `src/project.rs`, `src/numake_file.rs`, `src/util.rs`): `OldTargets`,
  `ScriptTargets`, `LuaFile`, `FlatProject`, `Util`;
- shared vocabulary: `Wrappers`, `Errors`, `Paths` (component paths with
  `Join`, `StartsWith`, file names, extensions and the `pathdiff` relative
  path), `Strings`, `Process`, `FailFast`, `Assets`, `Toml`, `CacheStore`.

Everything outside the program is a parameter. A subprocess is an oracle
from an invocation (program and argument list) to "spawned with this exit
code, stdout and stderr" or "could not be started". Each revision's policy
for reading that outcome is modelled separately: error on stderr, error on
status, status ignored, or panic on spawn failure. Path canonicalisation,
"is this a file" queries, directory trees, the size of a script file,
hash functions (`hash_string`, SHA-256), compression
and serialisation are parameters too. Compression and serialisation are
tagging constructors, with decoding as their inverse. A build is the
sequence of invocations it would run. The sequence runs fail-fast, so the
first failure aborts the rest, as the `?` chains in the source do. A Rust
`panic!`/`unwrap` on a failure is an `Error.Panic` value, so that it can
be told apart from a returned error.

Every operation carries a partner in its contract or in a lemma. Setters
come with getters and "nothing else changes". Dump and parse, and encode
and decode, are inverses. Script-cache runs are related to the second,
cache-hit run. Each build is compared with an independent statement of
when it succeeds and what it produces.

## Model

| member | source | states |
|---|---|---|
| SourceFiles.Classify | src/lib/data/source_file_type.rs:15-36 | "cpp", "c" and "cxx" are code, "rc" a resource script, "def" a module definition, and every other extension or none is unknown, each as an if-and-only-if |
| SourceFiles.ClassifyByExtension | src/lib/data/source_file_type.rs:16-35 | the classification depends on the extension alone |
| SourceFiles.ClassifyName | src/lib/data/source_file_type.rs:16-35 | a file `stem.ext` in any directory is classified by `ext`; headers and upper-case extensions are unknown |
| SourceFiles.EveryTypeListed | src/lib/data/source_file_collection.rs:16-18 | the iteration over the file types reaches all four types |
| SourceFiles.New | src/lib/data/source_file_collection.rs:14-21 | a new collection has one empty bucket for every type |
| SourceFiles.Insert | src/lib/data/source_file_collection.rs:23-42 | the path is added to the bucket of its type, a missing bucket is created, and every other bucket is unchanged |
| SourceFiles.InsertIdempotent | src/lib/data/source_file_collection.rs:23-42 | inserting a path that is already present leaves the collection as it was |
| SourceFiles.InsertCommutes | src/lib/data/source_file_collection.rs:23-42 | the order of two insertions does not matter |
| SourceFiles.Get | src/lib/data/source_file_collection.rs:44-59 | the list holds every path of the bucket exactly once and nothing else; a missing bucket gives an empty list |
| ProjectData.DefaultProject | src/lib/data/project.rs:21-40 | a default project has no sources, flags or assets, is C, an executable, and has no output name or architecture |
| ProjectData.AddFile | src/lib/data/project.rs:43-53 | a regular file is inserted into its type's bucket and nothing else changes; anything else is refused with the "is a directory" error |
| ProjectData.AddFileToDefault | src/lib/data/project.rs:43-53 | a file added to a default project is found in its bucket, even though the default collection has no buckets yet |
| ProjectData.FilterFlags | src/lib/data/project.rs:74-88 | the strings kept are exactly those stored under the requested type |
| ProjectData.FilterFlagsAppend | src/lib/data/project.rs:74-88 | filtering the flags distributes over appending more flags |
| ProjectData.Tagged | src/lib/data/project.rs:180-186 | every string of a list is paired with the one flag type, in order |
| ProjectData.FilterTagged | src/lib/data/project.rs:169-190 | a list added under one type is read back whole under that type and not at all under another |
| ProjectData.Flag | src/lib/data/project.rs:169-190 | the strings are appended under the given type, the flags of every other type are unchanged, and so is every other field |
| ProjectData.Include | src/lib/data/project.rs:127-133 | the strings are appended to the include paths in order and nothing else changes |
| ProjectData.Lib | src/lib/data/project.rs:135-148 | the strings are appended to the libraries in order and nothing else changes |
| ProjectData.LibPath | src/lib/data/project.rs:150-156 | the strings are appended to the library paths in order and nothing else changes |
| ProjectData.Define | src/lib/data/project.rs:158-167 | the strings are appended to the defines in order and nothing else changes |
| ProjectData.SetOutput | src/lib/data/project.rs:114-117 | only the output name is set |
| ProjectData.SetArch | src/lib/data/project.rs:192-195 | only the architecture is set |
| ProjectData.SetType | src/lib/data/project.rs:197-200 | only the project type is set |
| ProjectData.CopyOne | src/lib/data/project.rs:60-68 | one asset is copied from its canonical source to `out_dir.join(dest)`; a missing source is an I/O error and a destination that leaves the output directory is refused |
| ProjectData.CopyAssets | src/lib/data/project.rs:55-72 | copying succeeds exactly when every asset's source exists and its destination stays inside; the copies are the assets in iteration order; failures are only those two errors |
| ProjectData.CopyAssetsOrderIrrelevant | src/lib/data/project.rs:60 | whether the copy succeeds does not depend on the hash map's iteration order |
| ProjectData.AddSources | src/lib/data/project.rs:102-107 | the loop fails exactly when some path cannot be canonicalised, with an I/O error; buckets only grow and gain nothing but canonical paths from the list; on success every path lands in the bucket of its own type |
| ProjectData.FileMethod | src/lib/data/project.rs:93-112 | `file` with one path or a list succeeds exactly when every path canonicalises; it changes only the source collection, files each path under its type, and fails with an I/O error otherwise |
| Toolchain.Prefixed | src/lib/compilers/generic.rs:72-78 | every argument is the prefix followed by the item, one per item in order, and the item can be read back after the prefix |
| Toolchain.PrefixedAppend | src/lib/compilers/generic.rs:72-78 | prefixing distributes over appending lists |
| Toolchain.ObjectFile | src/lib/compilers/generic.rs:53-59 | an object exists exactly when `diff_paths` has an answer; for a source below the base it is the source's relative directories and name, with the extension appended, under the object directory |
| Toolchain.ObjectFileUnder | src/lib/compilers/mingw.rs:127-133 | for a source below the project directory the object path is the relative path with the extension appended, under the object directory |
| Toolchain.ObjectFilesDistinct | src/lib/compilers/mingw.rs:127-133 | two different sources below the project directory never share an object file |
| Toolchain.OptionsOf | src/lib/compilers/mingw.rs:162-172 | the lists a back-end reads from a project: its include paths, defines, library paths and libraries, and its compiler and linker flags by type |
| Toolchain.CompileArgs | src/lib/compilers/generic.rs:65-84 | "-c", "-o<object>", "-I" per include path, "-D" per define, the compiler flags, and the source last, at fixed positions |
| Toolchain.GccLinkArgs | src/lib/compilers/mingw.rs:324-354 | the objects, the module definitions, "-L" per library path, "-l" per library, the compiler flags, "-Wl," per linker flag, and the output last, at fixed positions |
| Toolchain.ArArgs | src/lib/compilers/mingw.rs:291-307 | "rcs", the archive path, the objects, then the module definitions |
| Toolchain.OutputArg | src/lib/compilers/generic.rs:121-125 | the output argument is "-o" followed by `<out_dir>/<output>` |
| Toolchain.OutputName | src/lib/compilers/generic.rs:164 | the output name is the project's, or "out" when it has none |
| GenericCompiler.CompileOne | src/lib/compilers/generic.rs:50-90 | a source with no relative path aborts; otherwise it is compiled with `Toolchain.CompileArgs`, succeeds exactly when the compiler does, and yields its object |
| GenericCompiler.CompileStep | src/lib/compilers/generic.rs:43-94 | the step succeeds exactly when every source compiles, and yields their objects in order; a failure is the error of some source, all sources before it having compiled |
| GenericCompiler.LinkArgs | src/lib/compilers/generic.rs:104-125 | the objects, "-L" per library path, "-l" per library, the linker flags, and the output last, at fixed positions |
| GenericCompiler.Build | src/lib/compilers/generic.rs:136-171 | compile, then link with the objects, then copy the assets; the first failure is the result and nothing after it runs |
| GenericCompiler.BuildSucceeds | src/lib/compilers/generic.rs:136-171 | after a successful build every code source compiled, the link ran and succeeded with the objects first, and every asset was copied |
| MinGWCompiler.ToolPrefix | src/lib/compilers/mingw.rs:399-402 | the tool prefix is `<arch>-w64-mingw32-`, with "x86_64" when no architecture is set |
| MinGWCompiler.Driver | src/lib/compilers/mingw.rs:149-155 | the compiler driver is the prefix followed by "gcc" for C and "g++" for C++ |
| MinGWCompiler.DirtyFiles | src/lib/compilers/mingw.rs:91-100 | the dirty sources are a sub-list of the sources |
| MinGWCompiler.DirtyFilesMembers | src/lib/compilers/mingw.rs:91-100 | a source is dirty exactly when its hash is unknown or not in the stored clean-set |
| MinGWCompiler.DirtyFilesPrefix | src/lib/compilers/mingw.rs:91-100 | the dirty sources of a prefix are a prefix of the dirty sources |
| MinGWCompiler.CleanAndDirtyAreAll | src/lib/compilers/mingw.rs:102-123 | the hashes kept as clean plus the hashes of compiled sources are all known hashes of the listed sources |
| MinGWCompiler.Objects | src/lib/compilers/mingw.rs:126-139 | every source contributes its object, in order |
| MinGWCompiler.VisitFile | src/lib/compilers/mingw.rs:126-187 | one source goes on exactly when it has an object and, if dirty, compiles and has a hash; it is compiled exactly when dirty, and only a dirty source is ever started |
| MinGWCompiler.ContinueExtends | src/lib/compilers/mingw.rs:139-187 | a source that goes on extends the compiled list by itself exactly when dirty, and the clean-set by its hash |
| MinGWCompiler.StopEndsLoop | src/lib/compilers/mingw.rs:176-187 | a source that stops the loop ends the step, and the sources compiled so far are still dirty ones |
| MinGWCompiler.VisitObjects | src/lib/compilers/mingw.rs:139 | the objects collected are those of every source, in order |
| MinGWCompiler.CompileLoop | src/lib/compilers/mingw.rs:123-192 | only dirty sources are compiled; the loop succeeds exactly when every source goes on, then lists every object and writes back the hash of every listed source; a failure is the error of the first source that stops it |
| MinGWCompiler.VisitFileAgrees | src/lib/compilers/mingw.rs:126-187 | the one-source step compiles exactly the dirty sources, and all sources go on exactly when they all pass |
| MinGWCompiler.CompileStep | src/lib/compilers/mingw.rs:60-195 | an unreadable cache is an I/O error; the step succeeds exactly when every source passes; on success the objects of all sources are returned, exactly the dirty sources were compiled, and the clean-set written back is the hash of every listed source; a failure is the error of the first source that does not pass and leaves the cache untouched |
| MinGWCompiler.SecondRunIsClean | src/lib/compilers/mingw.rs:91-100 | with the clean-set a successful step writes back, a second run over unchanged sources finds nothing dirty |
| MinGWCompiler.NothingDirty | src/lib/compilers/mingw.rs:91-100 | when no source is dirty the dirty list is empty |
| MinGWCompiler.ResourceArgs | src/lib/compilers/mingw.rs:234-249 | "-v", the script, "-OCOFF", "-I" per include path, "-D" per define, then "-o<coff file>" |
| MinGWCompiler.ResourceOne | src/lib/compilers/mingw.rs:211-257 | a script with no relative path aborts; otherwise windres runs and the script yields its COFF object exactly when windres succeeds |
| MinGWCompiler.ResourceStep | src/lib/compilers/mingw.rs:197-263 | the step succeeds exactly when every script compiles, and yields their objects in order |
| MinGWCompiler.RelativeObjects | src/lib/compilers/mingw.rs:274-286 | objects without a relative path are dropped; when all have one, each is replaced by it in order |
| MinGWCompiler.NoObjectDropped | src/lib/compilers/mingw.rs:274-286 | with a project directory free of "..", no absolute object is dropped |
| MinGWCompiler.LinkInvocation | src/lib/compilers/mingw.rs:265-367 | a static library is archived with `ar`; anything else is linked by the driver with `Toolchain.GccLinkArgs`, both over the relative objects and the module definitions |
| MinGWCompiler.Build | src/lib/compilers/mingw.rs:369-417 | the build succeeds exactly when the cache is readable, every source passes, the resource step succeeds, the link of the compiled objects followed by the resource objects succeeds and every asset is copied; otherwise its error is the first failing step's: an I/O error for the cache, the first source that does not pass, the resource step, then the link |
| MsvcCompiler.CompileArgs | src/lib/compilers/msvc.rs:150-169 | the CL command line is the GCC-style compile line (`Toolchain.CompileArgs`) with only the object argument changed from "-o<object>" to "-Fo<object>" |
| MsvcCompiler.CompileOne | src/lib/compilers/msvc.rs:131-176 | a source with no path relative to the numake directory aborts; otherwise CL runs with the captured environment, and the source yields its ".obj" object exactly when CL succeeds |
| MsvcCompiler.CompileStep | src/lib/compilers/msvc.rs:120-180 | the step succeeds exactly when every source compiles, and yields their objects in order |
| MsvcCompiler.ResourceArgs | src/lib/compilers/msvc.rs:218-232 | "-v", "-fo<res file>", "-i" per include path, "-d" per define, then the script |
| MsvcCompiler.CvtresArgs | src/lib/compilers/msvc.rs:259-268 | "/OUT:<rbj file>", "/DEFINE:" per define, then the ".res" file |
| MsvcCompiler.ResourceOne | src/lib/compilers/msvc.rs:195-276 | a script with no relative path aborts; otherwise RC then CVTRES run, and the script yields its ".rbj" object exactly when both succeed |
| MsvcCompiler.ResourceStep | src/lib/compilers/msvc.rs:182-281 | the step succeeds exactly when every script converts, and yields their ".rbj" objects in order |
| MsvcCompiler.LinkTool | src/lib/compilers/msvc.rs:294-297 | LIB exactly for a static library, LINK otherwise |
| MsvcCompiler.LinkArgs | src/lib/compilers/msvc.rs:299-324 | "/OUT:<out>/<output>", "/LIBPATH:" per library path, "/DEF:" per module definition, the linker flags, the objects, then the libraries, at fixed positions |
| MsvcCompiler.Build | src/lib/compilers/msvc.rs:338-409 | off Windows the build fails with the Windows-only error and does nothing; on Windows the environment capture, the compile step, the resource step and the link run in that order, the first failure is the result, and after a successful link the result is the asset copy |
| MsvcCompiler.BuildSucceeds | src/lib/compilers/msvc.rs:346-409 | the build succeeds if and only if it runs on Windows, the toolchain is found, the compile and resource steps succeed, the link of their objects (sources first) succeeds and every asset is copied; each step succeeds if and only if every file of the project's bucket for it succeeds, in whatever order the bucket is listed |
| MsvcCompiler.EveryListedOk | src/lib/compilers/msvc.rs:131 | over an enumeration of a bucket, every listed path succeeding is every path of the bucket succeeding |
| MsvcEnv.ParseLine | src/lib/compilers/msvc.rs:103-112 | as written: the name is the text before the first '=' and the value the text up to the next '='; a line with no '=' is a name with an empty value |
| MsvcEnv.ParseLineOneEquals | src/lib/compilers/msvc.rs:103-112 | a line with exactly one '=' is read back as its name and value |
| MsvcEnv.ParseLineTruncates | src/lib/compilers/msvc.rs:104-107 | as written, a value that itself holds '=' is cut at it |
| MsvcEnv.ParseLineExample | src/lib/compilers/msvc.rs:104-107 | the line "A=b=c" is read as "A" with the value "b" |
| MsvcEnv.ParseEnv | src/lib/compilers/msvc.rs:102-114 | as written: every line's name is in the map and every key comes from some line |
| MsvcEnv.ParseEnvLastWins | src/lib/compilers/msvc.rs:102-112 | the value a name keeps is that of its last line |
| MsvcEnv.ParseLineAtFirst | src/lib/compilers/msvc.rs:103-112 | corrected: the line is split at its first '=' only, so name, '=' and value give back the line |
| MsvcEnv.ParseLineAtFirstRoundTrip | src/lib/compilers/msvc.rs:103-112 | corrected: any value, '=' included, is read back whole |
| MsvcEnv.ParseEnvAtFirst | src/lib/compilers/msvc.rs:102-114 | corrected: every line's name is in the map |
| MsvcEnv.DumpLines | src/lib/compilers/msvc.rs:90 | `set` writes one `NAME=VALUE` line per variable |
| MsvcEnv.DumpThenParse | src/lib/compilers/msvc.rs:90-114 | corrected: reading back what `set` wrote gives every variable its value |
| MsvcEnv.DumpThenParseLoses | src/lib/compilers/msvc.rs:90-114 | as written: a variable whose value holds '=' does not survive the dump and read-back |
| MsvcEnv.BatchScript | src/lib/compilers/msvc.rs:80-91 | three lines: "@echo off", the call of `vcvarsall.bat` in the auxiliary directory with the architecture (default "x64"), platform and SDK version, and the `set` dump |
| MsvcEnv.Setup | src/lib/compilers/msvc.rs:42-118 | a failing locator is its error and an empty answer is "VC not found"; on success the batch file ran, its dump was read, and the map is that dump parsed |
| CacheStore.Load | src/lib/cache.rs:22-47 | a missing `cache.toml` is created empty and gives empty tables; an unparsable one is a parse error; otherwise the table and its "workspace" sub-table are read, and nothing else is touched |
| CacheStore.WithUserValues | src/lib/cache.rs:134-141 | the user table is stored under "workspace" and every other key is kept |
| CacheStore.FlushThenLoad | src/lib/cache.rs:134-141 | loading what a flush wrote gives back the same user table and table |
| CacheStore.Write | src/lib/cache.rs:49-59 | writing fails exactly when the name is a directory; otherwise only that entry now holds the content |
| CacheStore.Read | src/lib/cache.rs:61-69 | reading succeeds exactly on a file and gives its content; anything else is an I/O error |
| CacheStore.WriteThenRead | src/lib/cache.rs:49-69 | a successful write is read back unchanged |
| CacheStore.MakeDir | src/lib/cache.rs:79-90 | afterwards the name exists; an existing entry is left alone, otherwise a directory is added |
| CacheStore.MakeDirIdempotent | src/lib/cache.rs:84-87 | creating a directory twice is the same as once |
| Toml.UserTableOf | src/lib/cache.rs:35-40 | no "workspace" key gives an empty user table, a table under it is that table, and anything else there aborts (`as_table().unwrap()`) |
| LibCache.New | src/lib/cache.rs:22-47 | a cache opens exactly when its file loads, holding the table and the "workspace" sub-table (empty when absent), with no files touched |
| LibCache.SetValue | src/lib/cache.rs:100-108 | the value is then found under its key, and every key with another hash reads as before; the user table is unchanged |
| LibCache.GetValue | src/lib/cache.rs:110-116 | a value is found exactly when the key's hash is in the table, and it is the one stored there |
| LibCache.PopValue | src/lib/cache.rs:118-124 | the key is then absent, and every key with another hash reads as before |
| LibCache.CheckKeyExists | src/lib/cache.rs:126-132 | true exactly when a value is found |
| LibCache.OtherKeysUntouched | src/lib/cache.rs:100-124 | with a hash that keeps keys apart, setting or removing one key leaves every other key as it was |
| LibCache.WriteFile | src/lib/cache.rs:49-59 | the data is written to `hash(name).file`, which then exists; a directory in the way is an I/O error |
| LibCache.ReadFile | src/lib/cache.rs:61-69 | reading succeeds exactly when `hash(name).file` is a file |
| CacheStore.CheckFileExists | src/lib/cache.rs:71-77 | true exactly when `hash(name).file` exists (the newest revision's `check_file_exists` is the same) |
| LibCache.WriteFileThenReadFile | src/lib/cache.rs:49-69 | a written blob reads back unchanged |
| CacheStore.GetDir | src/lib/cache.rs:79-90 | the directory is named `hash(name)` and exists afterwards; an existing one is left alone |
| CacheStore.CheckDirExists | src/lib/cache.rs:92-98 | true exactly when `hash(name)` exists |
| CacheStore.GetDirTwice | src/lib/cache.rs:79-90 | asking for the same directory twice changes nothing more |
| LibCache.Flush | src/lib/cache.rs:134-141 | the user table is stored under "workspace", every other key is kept, and the file holds the table |
| LibCache.FlushThenNew | src/lib/cache.rs:22-47 | reopening a flushed cache gives the same user table and the same value for every key whose hash is not "workspace" |
| SharedCache.New | src/lib/util/cache.rs:19-43 | a cache opens exactly when its file loads; it gets two fresh cells holding the table and its "workspace" sub-table |
| SharedCache.Clone | src/lib/util/cache.rs:162-170 | a clone holds the same two cells |
| SharedCache.Lookup | src/lib/util/cache.rs:103-111 | a value is found exactly when the key's hash is in the cell's table |
| SharedCache.SetValue | src/lib/util/cache.rs:94-101 | the value is found under its key, keys with another hash and every other cell are unchanged |
| SharedCache.GetValue | src/lib/util/cache.rs:103-111 | the lookup reads the internal table's cell |
| SharedCache.PopValue | src/lib/util/cache.rs:113-118 | the key is absent afterwards, and keys with another hash and every other cell are unchanged |
| SharedCache.CheckKeyExists | src/lib/util/cache.rs:120-125 | true exactly when a value is found |
| SharedCache.SetUserValue | src/lib/util/cache.rs:127-134 | the user value is found under its key, and keys with another hash and every other cell are unchanged |
| SharedCache.GetUserValue | src/lib/util/cache.rs:136-144 | the lookup reads the user table's cell, keyed by the hash |
| SharedCache.PopUserValue | src/lib/util/cache.rs:146-151 | the user key is absent afterwards, and nothing else changes |
| SharedCache.TablesAreSeparate | src/lib/util/cache.rs:94-151 | writing one of the two tables never changes what the other reads |
| SharedCache.CloneShares | src/lib/util/cache.rs:162-170 | a write or removal through a clone is seen through the original |
| SharedCache.Flush | src/lib/util/cache.rs:153-159 | the user table is stored under "workspace" in the internal table, which is written to the file; other cells are unchanged |
| SharedCache.FlushThenNew | src/lib/util/cache.rs:19-43 | reopening a flushed cache gives the same user table and the same internal values |
| SharedCache.WriteFile | src/lib/util/cache.rs:45-54 | the blob is stored compressed under `hash(name).file`, unless a directory is in the way |
| SharedCache.ReadFile | src/lib/util/cache.rs:56-66 | reading succeeds exactly on a compressed blob, and decompresses it |
| SharedCache.WriteFileThenReadFile | src/lib/util/cache.rs:45-66 | a written blob reads back unchanged |
| BuildCache.WriteSet | src/lib/util/build_cache.rs:21-30 | the encoded set is written to `<name>.bcache`, unless a directory is in the way |
| BuildCache.ReadSet | src/lib/util/build_cache.rs:32-47 | a missing file is the empty set, a directory an I/O error, and content that does not decode also the empty set |
| BuildCache.WriteSetThenReadSet | src/lib/util/build_cache.rs:21-47 | a written set is read back unchanged |
| BuildCache.NamesAreIndependent | src/lib/util/build_cache.rs:21-47 | writing one named set does not change another |
| BuildCache.SetFilesAreNotBlobs | src/lib/util/build_cache.rs:26 | a set's file name never collides with a cache blob's |
| BuildCache.WriteSetKeepsBlobs | src/lib/util/build_cache.rs:21-30 | writing a set leaves every cache blob readable as before |
| Paths.Join | src/targets/generic_target.rs:121 | `Path::join`: an absolute right-hand side replaces the base; a relative one yields the base followed by exactly its components |
| Paths.JoinStaysInside | src/targets/generic_target.rs:120-122 | `out_dir.join(val)` starts with `out_dir` exactly when `val` is relative or already starts with `out_dir`, which is the only way the asset guard can fail |
| Paths.FileName | src/numake_file.rs:345 | `file_name()` is the last component, and exists exactly when there is a last component that is not `..` |
| Paths.Extension | src/project.rs:92-97 | `extension()` exists only for a file name with a dot after its first character, and is the text after the last dot |
| Paths.ExtensionOfName | src/project.rs:92-97 | a name `stem.ext` with a non-empty stem and no dot in `ext` has extension `ext` |
| Paths.NoDotNoExtension | src/project.rs:92 | a file name without a dot has no extension, so `extension().unwrap()` panics on it |
| Paths.DiffPathsInverse | src/targets/generic_target.rs:189-194 | for a file below the working directory, `diff_paths` gives the components after the directory, and joining them back onto the directory recovers the file |
| Paths.DiffPathsTotal | src/lib/compilers/generic.rs:53-58 | `diff_paths(..).unwrap()` cannot panic when the base holds no `..` and the path is absolute whenever the base is |
| Paths.ParseRender | src/lib/compilers/generic.rs:66-70 | rendering a well-formed path to text and reading it back gives the same path, so the strings handed to tools denote the paths computed |
| Process.Run | src/lib/target/mingw.rs:372-415 | each revision's `execute` policy: a spawn failure is always an error (a panic under `status().unwrap()`); otherwise success means exit code zero, or any exit for the status-only policies, and a failure carries stderr, stdout or the status as that revision does |
| FailFast.Traverse | src/lib/compilers/generic.rs:50-100 | a `?` inside a `for` loop succeeds exactly when every element's action succeeds, then collects every result in order; otherwise it returns the error of the first failing element |
| FailFast.TraverseOrderIrrelevant | src/targets/generic_target.rs:120-127 | whether such a loop succeeds depends only on the elements, not on the order a hash map yields them in |
| FailFast.TraverseAppend | src/targets/generic_target.rs:120-127 | two such loops run one after the other behave as one loop over both sequences |
| Sandbox.AddChecked | src/targets/generic_target.rs:97-111 | `add_file` refuses a file outside the working directory, then refuses anything that is not a regular file, and otherwise appends exactly that file |
| Sandbox.AddCheckedKeepsInside | src/targets/generic_target.rs:102-104 | a target whose files all lie in the working directory still has that property after a successful add |
| Sandbox.Admit | src/targets/generic_target.rs:482-486 | one name given to the `files` setter is joined onto the working directory and canonicalised (an I/O error when that fails), then passes the checked add; the admitted path is the canonical one and lies in the working directory |
| Sandbox.Extend | src/targets/generic_target.rs:481-488 | a setter loop only appends: the list it leaves begins with the list it started from |
| Sandbox.ExtendStopsAtFirstRefusal | src/targets/generic_target.rs:481-488 | the loop stops at the first refused name with that name's error, having appended exactly the admitted names before it, in order |
| Sandbox.AddAllKeepsInside | src/targets/generic_target.rs:479-490 | however far the `files` setter gets, every file of the target lies in the working directory |
| Sandbox.Relatives | src/targets/generic_target.rs:463-477 | the `files` getter succeeds exactly when every file has a path relative to the working directory, and yields those relative paths in order; otherwise it panics |
| Sandbox.RelativesRoundTrip | src/targets/generic_target.rs:463-477 | for files inside the working directory the getter cannot panic, and joining each relative path back onto the directory gives the stored file |
| Sandbox.SetAssets | src/targets/generic_target.rs:506-519 | the `assets` setter succeeds exactly when every key canonicalises to a path in the working directory; it only adds keys, keeps every key in the working directory, and maps each admitted key to its destination |
| Sandbox.AssetSource | src/targets/generic_target.rs:508-513 | an asset key is admitted exactly when its canonical path exists and lies in the working directory; a missing path is an I/O error and an outside one is refused |
| Sandbox.CopyChecked | src/targets/generic_target.rs:119-126 | one asset is copied to `out_dir.join(val)` exactly when that stays inside the output directory; otherwise the asset error is raised |
| Sandbox.CopyAll | src/targets/generic_target.rs:114-130 | `copy_assets` succeeds exactly when every destination stays inside the output directory, copies every asset to its joined destination and nothing else |
| Sandbox.CopyInAnyOrder | src/targets/generic_target.rs:119 | whatever order the hash map yields the assets in, the loop has the same outcome, the same error and the same set of copies |
| Walk.WalkDir | src/lib/workspace.rs:558-595 | a start outside the working directory is refused; the only errors are that refusal and I/O errors, the latter for a start that is not a directory or an entry that cannot be read or canonicalised |
| Walk.WalkDirSpec | src/lib/workspace.rs:558-595 | the walk succeeds exactly when every directory it enters lies in the working directory and every entry it lists can be read and canonicalised, and then lists exactly the files in the tree (or only at the top level when not recursive) that the extension filter keeps |
| Walk.BrokenEntryFails | src/lib/workspace.rs:570-571 | a directory that lists an entry which cannot be read or canonicalised cannot be walked |
| Walk.WalkEntriesSpec | src/lib/workspace.rs:570-592 | the loop over one directory's entries from a given index succeeds and lists files exactly as the walk specification says for those entries |
| Walk.NoFilterKeepsEverything | src/lib/workspace.rs:588-590 | without a filter every file of the tree is listed |
| Walk.FilteredFilesPass | src/lib/workspace.rs:578-587 | with a filter, every listed file's extension (the empty string when it has none) is in the filter |
| Strings.SplitJoin | src/lib/util.rs:127-138 | joining the pieces of `split('=')` with '=' gives back the text split, so no character is lost by splitting |
| Strings.JoinSplit | src/lib/util.rs:127-138 | splitting a join of separator-free pieces gives back the pieces |
| Util.ParseArg | src/lib/util.rs:122-141 | the key of `args_to_map` is the text before the first '=' and holds no '='; the value is absent exactly when the argument holds no '=' |
| Util.ParseArgOneEquals | src/lib/util.rs:127-128 | `KEY=VALUE` with a single '=' parses to that key and value |
| Util.ParseArgNoEquals | src/lib/util.rs:139-140 | an argument without '=' is a key with no value |
| Util.ParseArgTwoEquals | src/lib/util.rs:129-138 | as written, a value containing '=' comes back with every piece followed by '=', so `K=a=b` yields `a=b=` |
| Util.ParseArgExample | src/lib/util.rs:129-138 | the concrete argument `K=a=b`: the source's parser gives `a=b=`, the corrected one `a=b` |
| Util.ParseArgAtFirst | src/lib/util.rs:122-141 | corrected parser: the key holds no '=', the value is absent exactly when the argument holds no '=', and key, '=' and value concatenate back to the argument |
| Util.ParseArgAtFirstRoundTrip | src/lib/util.rs:122-141 | for any key without '=' and any value, `KEY=VALUE` parses back to that key and value |
| Util.ParseArgAgreesOnOneEquals | src/lib/util.rs:122-141 | on arguments with at most one '=' the corrected parser agrees with the source's |
| Util.ArgsToMap | src/lib/util.rs:117-145 | with each argument read as the source reads it (the value rebuilt with a trailing '=' after two or more), every argument's key is in the map, every key of the map comes from some argument, and no arguments give the empty map |
| Util.ArgsToMapLastWins | src/lib/util.rs:127-141 | when a key occurs more than once, the value of its last occurrence is the one kept |
| Util.ArgsToMapOldest | src/util.rs:136-169 | the oldest revision's loop, which reads each argument the same way, computes the same map as the newest revision's `args_to_map` |
| Util.ToLuaResult | src/lib/util.rs:97-104 | `to_lua_result` keeps success and its value, and wraps an error as an external Lua error carrying the original one |
| ScriptCache.RunScript | src/lib/workspace.rs:283-330 | the cached bytecode is run exactly when the key and blob exist and the recorded size equals the current one, leaving cache and blobs unchanged; otherwise the source text runs, its compiled bytecode is stored under the script's name and the new size recorded |
| ScriptCache.SizeChangeRunsSource | src/lib/workspace.rs:296-305 | when the recorded size differs from the current one, the source is run rather than the cached bytecode |
| ScriptCache.AfterRunCacheIsWarm | src/lib/workspace.rs:305-330 | after any successful run, the cache holds a usable entry for the script at its current size |
| ScriptCache.SecondRunReplaysCompiled | src/lib/workspace.rs:296-304 | a second run at the same size replays exactly the bytecode the first run compiled, whatever the source and compiler are then |
| ScriptCache.LoadScript | src/lib/workspace.rs:427-468 | `load` refuses a path that is outside the working directory or missing; a cache hit returns the stored bytecode and changes nothing; a miss reads, compiles, stores the bytecode and the size, and returns it |
| ScriptCache.LoadTwice | src/lib/workspace.rs:446-447 | loading the same unchanged script twice returns the same bytecode and state the first load left, without reading or compiling again |
| Workspaces.New | src/lib/workspace.rs:164-187 | a missing working directory or script is an I/O error and a script outside the canonical working directory is refused; otherwise the workspace exists exactly when the cache opens, and then holds the canonical directory and script, no targets, the requested target and `.numake` under the working directory |
| Workspaces.Register | src/lib/workspace.rs:103-105 | `register_target` stores the target under its own name, adds only that name and leaves every other target and the cache alone |
| Workspaces.LastRegistrationWins | src/lib/workspace.rs:103-105 | registering two targets of the same name keeps only the second |
| Workspaces.RegistrationCommutes | src/lib/workspace.rs:103-105 | registering two targets of different names gives the same workspace in either order |
| Workspaces.Set | src/lib/workspace.rs:121-127 | `set` adds exactly its key to the user values and touches neither the internal table nor the targets |
| Workspaces.Get | src/lib/workspace.rs:129-138 | `get` finds a value exactly when the key was set |
| Workspaces.SetThenGet | src/lib/workspace.rs:121-138 | a value set is read back, other user keys are unchanged, and the internal values the script cache relies on are unchanged |
| Workspaces.Process | src/lib/workspace.rs:239-360 | a build script outside the working directory is refused; a successful run takes the targets and user values the script left and persists the cache with them |
| Workspaces.ProcessPersistsUserValues | src/lib/workspace.rs:339-349 | after processing, reading the flushed cache back yields the user values the script set |
| Workspaces.BuildTarget | src/lib/workspace.rs:395-425 | an unregistered name is `TargetNotFound`; a registered one yields exactly that target's build result |
| Workspaces.BuildSpec | src/lib/workspace.rs:383-393 | building everything succeeds exactly when every registered target builds, whatever the map's iteration order, and a failure is some target's failure; any other name builds just that target |
| Workspaces.EmptyWorkspace | src/lib/workspace.rs:383-393 | with no targets, building everything succeeds and building a name is `TargetNotFound` |
| LibTarget.NewFields | src/lib/target/mingw.rs:63-91 | a new target has the given name, output and working directory, no files, options, assets or architecture, and is not a static library |
| LibTarget.NewMinGW | src/lib/target/mingw.rs:63-91 | a new MinGW target has those fields, language "C++" and no windres flags |
| LibTarget.NewMsvc | src/lib/target/msvc.rs:65-92 | a new MSVC target has those fields and no RC flags |
| CustomTargets.New | src/lib/target/custom.rs:28-38 | a new custom target has its name and description and no sub-targets (the intermediate `src/targets/custom_target.rs:39-50` builds it the same way) |
| LibTarget.GetName | src/lib/workspace.rs:103-105 | the name a target is registered under is the name it was created with, for every kind of target |
| LibTarget.SetList | src/lib/target/mingw.rs:469-560 | each list setter replaces exactly its own list and leaves every other list as it was |
| LibTarget.WithFiles | src/lib/target/mingw.rs:589-603 | storing one file list replaces only that list; every other field is unchanged |
| LibTarget.SetFiles | src/lib/target/mingw.rs:589-603 | the `files`, `resource_files` and `def_files` setters only extend their own list, and change nothing else |
| LibTarget.SetAssetsOf | src/lib/target/mingw.rs:707-725 | the `assets` setter only adds keys to the asset map and changes nothing else |
| LibTarget.NewIsSound | src/lib/target/mingw.rs:63-91 | a new target keeps every file and asset key inside its working directory, vacuously |
| LibTarget.SetFilesKeepsSound | src/lib/target/mingw.rs:589-603 | a file-list setter, however far it gets, keeps every file and asset key inside the working directory |
| LibTarget.SetAssetsKeepsSound | src/lib/target/mingw.rs:707-725 | the asset setter keeps that invariant too |
| LibTarget.SetListKeepsSound | src/lib/target/mingw.rs:469-560 | option-list setters keep that invariant |
| LibTarget.SoundFilesReadBack | src/lib/target/mingw.rs:573-588 | for a target keeping the invariant, the file-list getters cannot panic, and each relative path they return leads back to the stored file |
| CustomTargets.SetSubTargets | src/lib/target/custom.rs:76-84 | the `sub_targets` setter replaces the list and keeps name and description (likewise `src/targets/custom_target.rs:79-85`) |
| LibTarget.OutputOf | src/lib/target/mingw.rs:193-197 | the output name is the workspace's override when set, else the target's own, else "out" |
| LibTarget.Prefix | src/lib/target/mingw.rs:200-203 | the MinGW tool prefix is the architecture (default "x86_64") followed by "-w64-mingw32-" |
| LibTarget.Driver | src/lib/target/mingw.rs:206-213 | the compiler driver is `g++` for C++ and `gcc` otherwise, after the prefix |
| LibTarget.NewMinGWUsesGpp | src/lib/target/mingw.rs:63-91 | a new MinGW target compiles with `x86_64-w64-mingw32-g++` |
| LibTarget.IntellisenseArch | src/lib/target/mingw.rs:446-452 | the editor architecture is "x86" for i686, "x64" for x86_64, the architecture itself otherwise, and "${default}" when there is none |
| LibTarget.MinGWCompileOne | src/lib/target/mingw.rs:206-255 | one source is compiled to the object named after its path relative to the working directory plus ".o" (a panic when it has none); the step succeeds exactly when the compiler does and yields that object |
| LibTarget.MinGWResourceOne | src/lib/target/mingw.rs:257-295 | one resource script goes through windres into the resource directory; the step succeeds exactly when windres does and yields the COFF object |
| LibTarget.MinGWLink | src/lib/target/mingw.rs:297-365 | a static library is archived with `ar`, anything else linked with the driver, with the objects, module definitions and options in the source's order |
| LibTarget.BuildMinGW | src/lib/target/mingw.rs:164-370 | the MinGW build compiles, runs windres, links and copies in that order; the first failing step's error is the build's error, and after a successful link the result is the asset copy into the target's output directory |
| LibTarget.SoundMinGWHasObjects | src/lib/target/mingw.rs:209-214 | for a target keeping the invariant, no source or resource script makes the object name panic |
| LibTarget.MinGWBuildSucceeds | src/lib/target/mingw.rs:164-370 | the MinGW build succeeds if and only if every source and every resource script compiles, the link over all their objects (sources first, in order) succeeds and every asset destination lies inside the output directory; the result is then every asset's copy and nothing else |
| LibTarget.BuildMsvc | src/lib/target/msvc.rs:247-452 | off Windows the MSVC build fails with `MsvcWindowsOnly`; on Windows the toolchain setup, the compile step, the resource step and the link run in that order, the first failure is the result, and after a successful link the result is the asset copy |
| LibTarget.MsvcBuildSucceeds | src/lib/target/msvc.rs:247-452 | the MSVC build succeeds if and only if it runs on Windows, the toolchain is found, every source and every resource script compiles, the link of their objects (sources first, each named after its path relative to the working directory) succeeds and every asset destination stays in the output directory; the result is then every asset's copy and nothing else |
| LibTarget.CustomIsFailFast | src/lib/target/custom.rs:43-52 | a custom target builds its sub-targets in order, succeeds exactly when each of them builds, and otherwise fails with the first failure |
| LibTarget.EmptyCustomBuilds | src/lib/target/custom.rs:43-52 | a custom target with no sub-targets builds successfully |
| CustomTargets.Execute | src/lib/target/custom.rs:54-60 | a custom target's `execute` starts no process: whatever it is given, it reports exit status 0 (likewise `src/targets/custom_target.rs:66-72`) |
| LibWorkspace.RegisterTarget | src/lib/workspace.rs:103-105 | registering stores the target under its own name and leaves other targets alone |
| LibWorkspace.BuildSpec | src/lib/workspace.rs:383-425 | "all" and "." build every registered target and succeed exactly when each builds; any other name, "*" included, builds that target alone, and an unregistered one is `TargetNotFound` |
| TargetsWorkspace.SiteOf | src/targets/generic_target.rs:156-174 | a target's build sees the workspace's `.numake` directory and its compiler, linker and output overrides |
| TargetsWorkspace.RegisterTarget | src/workspace.rs:124-126 | registering stores the target under its own name and leaves other targets alone |
| TargetsWorkspace.BuildSpec | src/workspace.rs:387-432 | "all" and "*" build every registered target and succeed exactly when each builds; any other name, "." included, builds that target alone, and an unregistered one is `TargetNotFound` |
| TargetsWorkspace.WorkspaceToolsSuffice | src/targets/generic_target.rs:156-182 | when the workspace names a compiler and a linker, a generic target never fails for a missing tool under either check and uses the workspace's |
| Targets.NewGeneric | src/targets/generic_target.rs:69-95 | a new generic target has the given name, tools, output and working directory, and no options, files or assets |
| Targets.NewMinGW | src/targets/mingw_target.rs:71-98 | a new MinGW target has the given name, output and directory, no options, files or assets, no architecture, is not a static library and is C++ |
| Targets.GetName | src/targets/target.rs:48-56 | a target's name is the name of the target it wraps, for each kind |
| Targets.AddMinGWFile | src/targets/mingw_target.rs:100-149 | `add_file`, `add_rc_file` and `add_def_file` each append to their own list under the same two checks |
| Targets.SetGenericFiles | src/targets/generic_target.rs:479-490 | the `files` setter only extends the list, changes nothing else, succeeds exactly when every name is admitted, and every added file is a regular file inside the working directory |
| Targets.AddAllAdmits | src/targets/generic_target.rs:479-490 | every file a setter appends is a regular file inside the working directory |
| Targets.SetGenericAssets | src/targets/generic_target.rs:507-520 | the `assets` setter only adds asset keys, succeeds exactly when every key is admitted, and keeps every key inside the working directory |
| Targets.FromLua | src/targets/target.rs:100-128 | a Lua value converts back to a target only when it is one of the three target kinds, and then it is the value the target was converted from; other user data is a script error and any other value panics |
| Targets.FromLuaIntoLua | src/targets/target.rs:86-128 | converting a target to Lua and back gives the same target |
| Targets.Override | src/targets/generic_target.rs:156-174 | a workspace setting, when present, overrides the target's own |
| Targets.GenericToolsAsWritten | src/targets/generic_target.rs:176-182 | as written, a missing linker and a missing compiler both report the linker-null error, and with both tools present the check passes them on |
| Targets.GenericTools | src/targets/generic_target.rs:176-182 | corrected: the tools are found exactly when both compiler and linker are named; a missing linker reports the linker error and a missing compiler the compiler error |
| Targets.MissingCompilerReportedAsLinker | src/targets/generic_target.rs:180-182 | whenever the linker is named and the compiler is not, the source reports the linker-null error where the compiler-null error is meant |
| Targets.ToolChecksAgreeOtherwise | src/targets/generic_target.rs:176-182 | in every other case the source and the corrected check agree |
| Targets.MissingCompilerExample | src/targets/generic_target.rs:180-182 | a concrete target with only a linker named shows the two checks disagreeing |
| Targets.GenericCompileOne | src/targets/generic_target.rs:184-227 | one source compiles to the object named after its path relative to the working directory plus ".o" (a panic when it has none), and the step succeeds exactly when the compiler does |
| Targets.BuildGeneric | src/targets/generic_target.rs:134-262 | a missing tool ends the build before anything runs, reported as the source reports it; then the compile step and the link run in order and the first failure is the build's error; after a successful link the result is the asset copy |
| Targets.GenericBuildSucceeds | src/targets/generic_target.rs:134-262 | the generic build succeeds if and only if both tools are there, every source compiles, the link over the objects (each named after its source's path relative to the working directory, in order) succeeds and every asset destination lies inside the output directory; the result is then every asset's copy and nothing else |
| Targets.MinGWDriver | src/targets/mingw_target.rs:214-222 | the compiler driver is `g++` for C++ and `gcc` otherwise, after the MinGW prefix |
| Targets.MinGWStepOne | src/targets/mingw_target.rs:214-304 | one source (or resource script, through windres) is compiled to its relative object name; the step succeeds exactly when the tool does |
| Targets.LdArgs | src/targets/mingw_target.rs:306-338 | the `ld` command line is the objects, the module definitions, "-L" paths, "-l" libraries, the linker flags and the output, in that order and nothing else |
| Targets.MinGWLink | src/targets/mingw_target.rs:306-362 | this revision links a static library with `ar` and anything else with `ld` directly |
| Targets.BuildMinGW | src/targets/mingw_target.rs:171-366 | the compile step, the windres step and the link run in that order and the first failure is the build's error; after a successful link the result is the asset copy |
| Targets.MinGWBuildSucceeds | src/targets/mingw_target.rs:171-366 | the MinGW build succeeds if and only if every compile and every windres succeeds, the link over the objects and then the COFF objects succeeds and every asset destination lies inside the output directory; the result is then every asset's copy and nothing else |
| Targets.BuildTarget | src/targets/target.rs:58-71 | building a target succeeds exactly when building the target it wraps does |
| Targets.Execute | src/targets/target.rs:73-84 | each kind reads a tool's result its own way: generic with stderr, MinGW with the exit status, MSVC by its own policy |
| Targets.BuildCustom | src/targets/custom_target.rs:54-64 | a custom target succeeds exactly when every sub-target builds, and otherwise fails with the first failing sub-target's error, all earlier ones having built |
| OldTargets.GetName | src/lua_workspace.rs:94-96 | a target is registered under the name of the target it wraps |
| OldTargets.Execute | src/msvc_target.rs:516-546 | this revision's `execute` fails only when the tool cannot be started; any exit status is returned as a success |
| OldTargets.LinkArgs | src/generic_target.rs:249-271 | the link line is the objects, "-L" paths, "-l" libraries, the output, then the linker flags, in that order and nothing else |
| OldTargets.LinkArgsMoveOutput | src/generic_target.rs:262-271 | this revision's link line and the newest revision's hold the same pieces; only the output moved from before the linker flags to after them |
| OldTargets.GenericCompileOne | src/generic_target.rs:177-247 | one source compiles to its relative object name (a panic when there is none); a compiler that cannot start or exits non-zero ends the build, the latter with its status |
| OldTargets.BuildGeneric | src/generic_target.rs:127-302 | a missing tool ends the build before anything runs, a missing compiler reported with the linker message as written; then the compile step and the link run in order and the first failure is the build's error; after the link starts the result is the asset copy |
| OldTargets.LinkStatusIgnored | src/generic_target.rs:273-299 | once every source compiled, a link that starts leads to the asset copy whatever its exit status |
| OldTargets.CompileFailureAborts | src/generic_target.rs:243-246 | the first source whose compiler exits non-zero ends the build with that exit status, and nothing after it runs |
| OldTargets.MsvcCompileOne | src/msvc_target.rs:309-364 | one source is compiled by `cl` to its ".obj" relative object name; a non-zero exit ends the build with the status |
| OldTargets.MsvcResourceOne | src/msvc_target.rs:366-463 | one resource script goes through `rc` into a ".res" file and `cvtres` into a ".rbj" object; either tool exiting non-zero ends the build |
| OldTargets.MsvcLink | src/msvc_target.rs:465-509 | the link tool is `lib` for a static library and `link` otherwise, with the newest revision's MSVC link line |
| OldTargets.BuildMsvc | src/msvc_target.rs:258-513 | off Windows the build fails with the Windows-only error; on Windows the setup (the dump read as written), the CL step, the RC and CVTRES step and the link run in that order, and the first failure, a non-zero exit included, is the build's error; after the link starts the result is the asset copy |
| OldTargets.MsvcBuildSucceeds | src/msvc_target.rs:258-513 | the MSVC build succeeds if and only if it runs on Windows, the setup succeeds, CL exits zero on every source, RC and CVTRES exit zero on every resource script, the linker starts on all their objects and every asset destination lies inside the output directory |
| OldTargets.MsvcLinkStatusIgnored | src/msvc_target.rs:465-511 | after a successful setup, compile and resource step, a link that starts leads to the asset copy whatever its status |
| OldTargets.BuildTarget | src/lua_workspace.rs:350-375 | building a target succeeds exactly when the target it wraps builds, with the same error otherwise |
| OldTargets.RegisterTarget | src/lua_workspace.rs:94-96 | registering stores the target under its own name and leaves other targets alone |
| OldTargets.BuildSpec | src/lua_workspace.rs:338-375 | "all" and "*" build every registered target and succeed exactly when each builds; any other name builds that target alone, and an unregistered one is `TargetNotFound` |
| ScriptTargets.New | src/target.rs:35-60 | a new target has the given name, tools, MSVC choice, output and directory, an empty language and no options, files or assets |
| ScriptTargets.AddFile | src/target.rs:62-73 | a file is appended exactly when it is inside the working directory and a regular file; the two refusals are distinguished |
| ScriptTargets.AddDir | src/target.rs:75-90 | `add_dir` only appends to the file list, and a list inside the working directory stays inside |
| ScriptTargets.AddEntries | src/target.rs:80-88 | the loop over one directory's entries only appends, keeping the list inside the working directory, and an entry that cannot be read or canonicalised is an I/O error |
| ScriptTargets.AddDirIsWalk | src/target.rs:75-90 | `add_dir` succeeds exactly when the unfiltered directory walk does and every file it lists is inside the working directory, and then appends exactly the walk's files in order |
| ScriptTargets.AddEntriesIsWalk | src/target.rs:80-88 | the same, for the entries of one directory from a given index on |
| ScriptTargets.AddDirAt | src/target.rs:215-217 | the script's `add_dir` changes only the file list, only extends it, keeps it inside the working directory, and is an I/O error when the directory cannot be canonicalised |
| ScriptTargets.RemoveAll | src/target.rs:183 | `str::replace(pat, "")` never lengthens the text, is the identity for an empty pattern, and changes nothing when the pattern does not occur |
| ScriptTargets.FilesAsWritten | src/target.rs:173-187 | as written, the `files` getter yields each stored path as text with every occurrence of the working directory's text removed |
| ScriptTargets.SetFiles | src/target.rs:189-195 | the `files` setter changes only the file list, only extends it, keeps it inside the working directory, and succeeds exactly when every name is admitted |
| ScriptTargets.FilesGetterEscapes | src/target.rs:173-195 | for working directory `/p` holding `/p/a.c`, the getter yields "/a.c", which names a file outside `/p`, so writing back the list just read fails |
| ScriptTargets.Files | src/target.rs:173-187 | corrected getter: it succeeds exactly when every stored path has a path relative to the working directory, and yields those relative paths as text |
| ScriptTargets.FilesRoundTrip | src/target.rs:173-195 | with the corrected getter, each name read leads back to its stored file, and writing the list read into an empty target rebuilds the same target without error |
| ScriptTargets.SetAssets | src/target.rs:201-211 | the `assets` setter changes only the assets, only adds keys, succeeds exactly when every source canonicalises inside the working directory, stores each entry under the text the script gave, and fails only with an I/O or outside-directory error |
| LuaFile.New | src/lua_file.rs:78-95 | a workspace exists exactly when the working directory and the script joined onto it both canonicalise (an I/O error otherwise); it starts with no targets, `.numake` under the working directory and the command line's settings |
| LuaFile.CreateTarget | src/lua_file.rs:43-52 | `create_target` makes an empty target in the working directory that inherits the workspace's tools, MSVC choice and output |
| LuaFile.RegisterTarget | src/lua_file.rs:54-56 | `register_target` stores the target under its name, adds only that name and changes nothing else |
| LuaFile.ObjectNameAsWritten | src/lua_file.rs:237-246 | a source's object file lies directly in the object directory and is named after the source's file name, or `ERROR` when it has none, followed by the object extension |
| LuaFile.ObjectNamesCollideAsWritten | src/lua_file.rs:237-246 | as written, `src/a/x.c` and `src/b/x.c` get the same object file |
| LuaFile.ObjectNamesDistinct | src/lua_file.rs:237-246 | corrected naming (the path relative to the working directory) gives two different sources inside the working directory two different objects |
| LuaFile.CompileArgs | src/lua_file.rs:248-276 | the compile line is the GCC-style one, except that MSVC names the object with "-Fo:" |
| LuaFile.LinkArgs | src/lua_file.rs:283-323 | the GCC link line is the objects, "-L" paths, "-l" libraries, output and linker flags; the MSVC one is objects, libraries, "/link", "/out:", "/LIBPATH:" paths and linker flags, in that order |
| LuaFile.MsvcLinkArgs | src/lua_file.rs:283-323 | the MSVC link line has exactly those pieces at those positions |
| LuaFile.CompileOne | src/lua_file.rs:234-281 | the object is named after the source's file name; a compile step succeeds exactly when the compiler starts, whatever its status, and yields that object; a compiler that cannot start is a spawn error |
| LuaFile.CopyAssets | src/lua_file.rs:331-345 | copying succeeds exactly when every destination stays in the output directory, copies every asset from the text the script gave to its joined destination, and never writes outside; otherwise the invalid-destination error |
| LuaFile.BuildOne | src/lua_file.rs:203-347 | a successful target build is exactly its asset copy |
| LuaFile.BuildOneSucceeds | src/lua_file.rs:203-347 | a target builds if and only if every compiler it runs starts, the linker starts with every source's file-name object in list order, and every asset destination stays in the output directory |
| LuaFile.StatusesIgnored | src/lua_file.rs:279-328 | when every program starts, building a target is its asset copy even if every compiler and the linker exit non-zero |
| LuaFile.BuildTargetAsWritten | src/lua_file.rs:198-203 | as written, an unregistered name is `TargetNotFound`, a registered one still aborts when the workspace's requested target is not registered, and otherwise the result is that requested target's build in its own directories, whatever name was given |
| LuaFile.BuildAllAsWritten | src/lua_file.rs:187-203 | as written, "all" aborts on the first registered target unless a target is registered under "all" itself, and then every iteration builds that one target |
| LuaFile.BuildTarget | src/lua_file.rs:198-203 | corrected: an unregistered name is `TargetNotFound`; a registered one builds that target in its own directories |
| LuaFile.SingleTargetAgrees | src/lua_file.rs:187-196 | for a single requested name the source and the corrected build agree |
| LuaFile.BuildSpec | src/lua_file.rs:187-196 | corrected: "all" and "*" succeed exactly when every registered target builds, whatever the iteration order, and a failure is some target's failure; any other name builds that target alone or is `TargetNotFound` |
| LuaFile.Tail | src/lua_file.rs:128-137 | the cache key is made from the last 16 bytes of the UTF-8 encoding of the script's path, and a path shorter than 16 bytes has none |
| LuaFile.AsciiTail | src/lua_file.rs:128-137 | on an ASCII path the key exists exactly when the path has at least 16 characters |
| LuaFile.ShortPathHasKey | src/lua_file.rs:128-137 | a path of 12 characters, six of them two bytes long in UTF-8, still has a key |
| LuaFile.TableOf | src/lua_file.rs:144-151 | an absent cache file is created holding just this script's size; an unparsable one is an error; otherwise its table is used |
| LuaFile.RunCached | src/lua_file.rs:152-174 | with the size recorded and the blob present the stored bytecode runs and nothing is written; otherwise the source runs and only on success is the bytecode stored and the size recorded; afterwards the cache is warm and only the targets of the workspace changed |
| LuaFile.ProcessScriptAsWritten | src/lua_file.rs:114-177 | as written, a script outside the working directory is refused, a path under 16 bytes in UTF-8 panics, and a cache table without this script's key panics |
| LuaFile.ProcessScript | src/lua_file.rs:114-177 | corrected: the same refusals except that a missing key is a cache miss; a successful run changes only the targets and leaves the cache warm for this script |
| LuaFile.MissingKeyAsWritten | src/lua_file.rs:153 | a cache file made for another script makes `process` abort as written, while the corrected one runs the source and records it |
| LuaFile.ProcessAgrees | src/lua_file.rs:153-158 | whenever the key is present, the source and the corrected `process` agree |
| LuaFile.SecondRunReplays | src/lua_file.rs:153-157 | after a run from source, a second run at the same size replays exactly the compiled source and writes nothing |
| LuaFile.SameTailSharesEntry | src/lua_file.rs:128-137 | two scripts whose paths share the last 16 bytes share one cache entry, so the second replays the first one's bytecode |
| LuaFile.SharedSuffixSameTail | src/lua_file.rs:128-137 | paths ending in the same text of at least 16 bytes have the same key |
| LuaFile.SameTailExample | src/lua_file.rs:128-137 | two different paths with the same last 16 bytes exist |
| LuaFile.LongSuffixSameTail | src/lua_file.rs:128-137 | paths that end in the same text of at least 16 characters have the same key, since each character is at least one byte |
| FlatProject.New | src/numake_file.rs:43-67 | a project exists exactly when the working directory canonicalises (a panic otherwise), with `.numake` under it and nothing added yet |
| FlatProject.Put | src/numake_file.rs:492-540 | storing one option list replaces exactly that list and leaves every other list alone |
| FlatProject.AddTo | src/numake_file.rs:492-540 | each `add_*` function appends its value to its own list and changes nothing else |
| FlatProject.SetList | src/numake_file.rs:492-540 | each `set_*` function replaces its own list and changes nothing else; the defines have no setter |
| FlatProject.AddsAreASet | src/numake_file.rs:492-540 | adding values one by one to an emptied list gives the same project as replacing the list with them, and the same as the list's setter where there is one |
| FlatProject.PutTwice | src/numake_file.rs:492-540 | setting a list twice keeps only the second value |
| FlatProject.AddFile | src/numake_file.rs:563-578 | `add_file` appends the canonical path exactly when it exists, is a regular file and has a C or C++ source or header extension; anything else panics |
| FlatProject.AddDir | src/numake_file.rs:542-561 | `add_dir` only appends, and fails only with an I/O error or a panic |
| FlatProject.AddEntries | src/numake_file.rs:543-559 | the loop over one directory's entries only appends and fails only with an I/O error or a panic; an entry `read_dir` cannot yield is an I/O error (`entry?`), and an entry whose path cannot be canonicalised panics (`unwrap`) |
| FlatProject.AddDirIsFilteredWalk | src/numake_file.rs:542-561 | on a readable tree, `add_dir` completes exactly when every file in the walk has an extension, and then appends exactly the walked files whose extension is a source or header extension, in walk order |
| FlatProject.AddEntriesIsFilteredWalk | src/numake_file.rs:543-559 | the same, for the entries of one directory from a given index on |
| FlatProject.AllHaveExtensionAppend | src/numake_file.rs:549 | every file of a concatenation has an extension exactly when every file of both parts has one |
| FlatProject.AddAssetAsWritten | src/numake_file.rs:580-588 | as written, `add_asset` succeeds exactly when the source canonicalises to a regular file, and stores the text as given |
| FlatProject.AddAsset | src/numake_file.rs:580-588 | corrected: on the same condition it stores the canonical source path |
| FlatProject.AssetCheck | src/numake_file.rs:428-451 | an asset is copied exactly when its source lies in the working directory and its destination stays in the output directory; otherwise the build panics |
| FlatProject.RelativeAssetAbortsAsWritten | src/numake_file.rs:428-451 | with the text stored as written, a relative source path such as the one the script gives never passes the working-directory check, so the build panics on it |
| FlatProject.AssetInsidePasses | src/numake_file.rs:428-451 | with the corrected `add_asset`, a source inside the working directory passes that check |
| FlatProject.ObjectFor | src/numake_file.rs:341-346 | the object file is the source's file name plus the object extension under the object directory; a source without a file name panics |
| FlatProject.CompileOne | src/numake_file.rs:339-383 | a compile step only fails by panicking, and succeeds exactly when the object name exists and the compiler starts |
| FlatProject.LinkArgs | src/numake_file.rs:385-426 | the link line starts with the objects and has exactly one entry per library, linker flag and library path, plus one output entry (two for MSVC) |
| FlatProject.LinkArgsReordered | src/numake_file.rs:385-426 | the link line holds the same entries as the single-script revision's, only in a different order |
| FlatProject.Build | src/numake_file.rs:309-454 | a missing compiler or linker panics; a missing architecture, target or configuration builds nothing; any failure is a panic; a finished build yields one copy per stored asset, each the one its check allows, in order |
| FlatProject.Config | src/numake_file.rs:318-323 | the configuration name exists exactly when architecture, target and configuration are all set, and is the three joined with '-' |
| FlatProject.BuildSucceeds | src/numake_file.rs:309-454 | with both tools and a configuration, and every program starting, the build succeeds exactly when every source has a file name and every asset passes its check, and then yields exactly the asset copies |
| LuaFile.ObjectName | src/lua_file.rs:237-246 | corrected: a source's object file is its path relative to the working directory (as `diff_paths` computes it, so a source outside gets a path through `..`) with the object extension, the naming the later revisions use; no name exists only when `diff_paths` gives none, a working directory with `..` after the part it shares with the source |
| LuaFile.OutsideSourceHasName | src/lua_file.rs:237-246 | a source outside the working directory (`/q/x.c` under `/p`) still gets a corrected object name, reached through `..` |
| Strings.Split | src/lib/util.rs:127 | splitting always yields at least one piece and no piece contains the separator |
| Strings.SplitNoSeparator | src/lib/util.rs:127 | a text without the separator splits into itself alone |
| Strings.SplitAtFirst | src/lib/util.rs:127-138 | splitting at the first separator gives the text before it followed by the pieces of the rest |
| Strings.Utf8Char | src/lua_file.rs:128-133 | a character encodes to one to four bytes, to exactly one byte, its own code, when it is below 0x80 |
| Strings.Utf8 | src/lua_file.rs:128-133 | `as_bytes` gives at least one and at most four bytes per character |
| Strings.Utf8Append | src/lua_file.rs:128-133 | the bytes of a concatenation are the bytes of the parts one after the other |
| Strings.Utf8Ascii | src/lua_file.rs:128-133 | an ASCII text has exactly one byte per character, each the character's code |

## Left out

- Lua glue: registering userdata, fields and methods with `mlua`, executing scripts, and the Lua/TOML value conversions. A script's effect is a parameter, either the map of targets it declares or a compiled-bytes blob.
- Network access: `require_url`, `download_zip`, `load_url` and the `vswhere` download. These are foreign calls with no local semantics.
- Command-line parsing, the terminal UI and `list_targets`. They print and do not decide any build.
- `set_vscode_props`: only the mapping from architecture to IntelliSense mode is modelled, as `LibTarget.IntellisenseArch`. Writing the JSON file is I/O.
- Failures of `fs::create_dir_all`, `fs::copy` and writing a file are not modelled. Directories are assumed creatable, and a copy is the `Copy(source, destination)` the build asks for.
- HashMap iteration order is not fixed in Rust. It is modelled as an enumeration parameter, and lemmas show that success does not depend on it.
- Non-UTF-8 path rendering (`to_str().unwrap_or("ERROR")`) is not modelled: paths render as their components joined with '/'.
- src/lib/target/mod.rs is not part of this model; the `Target` enum it declares is represented by `LibTarget.Target`.
- src/lib/target/generic.rs is not part of this model.
- src/cache.rs is not part of this model.
- src/targets/msvc_target.rs is not part of this model; the intermediate MSVC target is covered only through `LibTarget.BuildMsvc`.
- LuaFile.CopyAssets: each asset source is the path text the script wrote, taken as is. Resolving a relative source against the process's current directory at copy time is file-system I/O and is not modelled.
- FlatProject.Build: keeps the file-name object naming as written, so the collision shown by `LuaFile.ObjectNamesCollideAsWritten` applies there too. The corrected naming needs every source inside the working directory, and that revision never checks it.
- Toml.Value: has no float and no date-time case. The cache files this model reads and writes hold only strings, integers, booleans, arrays and tables, and a cache file holding a float or a date-time is not modelled.
- ProjectData.FileMethod: on a failure it returns the error without the paths inserted before it, while the source has already inserted them into the project. The script aborts on that error in both cases.
- The MSVC environment capture runs `vcvarsall.bat` through `cmd`. Only the script text and the parsing of its output are modelled; how `vswhere` finds the installation is a parameter.

## Findings

Each row's corrected member states what the code evidently intends and proves it. The builds themselves follow the code as written, so that they describe what numake does today.

| source | as written | input that shows it | evidently intended | confidence | as-written member | corrected member |
|---|---|---|---|---|---|---|
| src/lib/compilers/msvc.rs:103-112 | each dump line is split at every '=' and only the first two pieces are kept | the line `A=b=c` is read as `A` ↦ `b` | the value is everything after the first '=', `A` ↦ `b=c` | not executed | MsvcEnv.ParseLine, MsvcEnv.ParseLineExample, MsvcEnv.DumpThenParseLoses | MsvcEnv.ParseLineAtFirst, MsvcEnv.ParseEnvAtFirst, MsvcEnv.DumpThenParse |
| src/targets/generic_target.rs:180-182 | a missing compiler is reported with the "linker is null" message | a workspace with a linker and no compiler | report that the compiler is null | not executed | Targets.GenericToolsAsWritten, Targets.MissingCompilerReportedAsLinker, Targets.MissingCompilerExample | Targets.GenericTools |
| src/lua_file.rs:198-203 | `build_target` checks that its argument names a target, then builds `self.target` | building every target while the selected target is `all` or `*` | build the target it was given | not executed | LuaFile.BuildTargetAsWritten, LuaFile.BuildAllAsWritten | LuaFile.BuildTarget, LuaFile.BuildSpec |
| src/target.rs:173-187 | the `files` getter deletes the working directory from each path and leaves a leading '/' | working directory `/p` with file `/p/a.c` reads back as `/a.c`, which joins to `/a.c` outside the working directory, so writing it back fails | paths relative to the working directory that the `files` setter accepts again | not executed | ScriptTargets.FilesAsWritten, ScriptTargets.FilesGetterEscapes | ScriptTargets.Files, ScriptTargets.FilesRoundTrip |
| src/numake_file.rs:580-588 | `add_asset` checks the canonical source but stores the text as the script wrote it, and the build then requires that text to start with the working directory | `add_asset("assets/x.png", "x.png")` with an absolute working directory panics at build time | store the canonical source path | not executed | FlatProject.AddAssetAsWritten, FlatProject.RelativeAssetAbortsAsWritten | FlatProject.AddAsset, FlatProject.AssetInsidePasses |
| src/lua_file.rs:153 | the cache table is indexed with `table[&file_uuid]`, which panics when the key is absent | an existing `cache.toml` that has no entry for this script | treat a missing entry as a cache miss and run the source | not executed | LuaFile.ProcessScriptAsWritten, LuaFile.MissingKeyAsWritten | LuaFile.ProcessScript, LuaFile.SecondRunReplays |
| src/lua_file.rs:237-246 | the object file is named after the source's file name only | `src/a/x.c` and `src/b/x.c` both compile to `x.o` | one object per source, as the later revisions name it | not executed | LuaFile.ObjectNameAsWritten, LuaFile.ObjectNamesCollideAsWritten | LuaFile.ObjectName, LuaFile.ObjectNamesDistinct |
| src/lib/util.rs:129-138 | an argument with more than one '=' has its value rebuilt with a '=' after every piece | `K=a=b` gives `K` ↦ `a=b=` | the value is everything after the first '=', `K` ↦ `a=b` | not executed | Util.ParseArg, Util.ParseArgTwoEquals, Util.ParseArgExample | Util.ParseArgAtFirst, Util.ParseArgAtFirstRoundTrip |
