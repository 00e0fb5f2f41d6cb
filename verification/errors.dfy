/** The errors the orchestrator reports, across all three revisions.
    The newest revision names them as an enum; the older ones use message
    constants; both map onto the same constructors here. Errors raised by
    the environment (a failed spawn, a non-zero exit, an I/O failure) carry
    what the source carries with them. */
module Errors {

  datatype Error =
    | PathOutsideWorkingDirectory
    | AssetCopyPathOutsideWorkingDirectory
    | ToolsetCompilerNull
    | ToolsetLinkerNull
    | AddFileIsDirectory
    | TaskNotFound
    | MsvcWindowsOnly
    | VcNotFound
    | TargetNotFound
    /** The program could not be started at all. */
    | SpawnFailed(program: string)
    /** A non-zero exit reported with the captured stderr or stdout. */
    | CommandFailed(output: string)
    /** A non-zero exit reported with the exit status itself. */
    | ExitStatus(code: int)
    /** An asset destination escaping the output directory (older revisions
        format their own message for it). */
    | AssetInvalidDestination
    /** An asset source outside the working directory (oldest revision). */
    | AssetOutsideWorkspace
    /** A file-system operation failed (canonicalisation of a missing path,
        reading a missing file, ...). */
    | IoError
    /** A stored file could not be parsed back (the cache's TOML file). */
    | ParseError
    /** The build script raised an error while running. */
    | ScriptError
    /** The Lua bytecode compiler rejected the script. */
    | CompileError
    /** The program aborts (`unwrap` on None/Err, `unreachable!`, indexing a
        missing key). */
    | Panic(reason: string)
    /** A Rust error handed to Lua as an external error. */
    | External(inner: Error)
}
