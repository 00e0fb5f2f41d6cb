/** Running external programs. The orchestrator never inspects a tool
    beyond its exit status and captured output, so a run is an oracle
    `Exec` from the invocation to what the operating system reports.
    Each revision turns that report into success or failure differently;
    those policies are the `Mode`s below. */
module Process {
  import opened Wrappers
  import opened Errors

  datatype Invocation = Invocation(program: string, args: seq<string>)

  datatype Outcome =
    | Spawned(code: int, stdout: string, stderr: string)
    | NotSpawned

  type Exec = Invocation -> Outcome

  /** How a revision interprets an outcome:
      - ErrStderr: a non-zero exit is an error carrying stderr;
      - ErrStdout: a non-zero exit is an error carrying stdout (MSVC tools);
      - ErrStatus: a non-zero exit is an error carrying the status;
      - StatusOnly: any exit is a success, the status is only reported;
      - UnwrapStatus: any exit is a success, and a spawn failure aborts the
        program (`status().unwrap()`). */
  datatype Mode = ErrStderr | ErrStdout | ErrStatus | StatusOnly | UnwrapStatus

  predicate Succeeded(o: Outcome) {
    o.Spawned? && o.code == 0
  }

  /** One invocation under a revision's policy; Ok carries the exit code. */
  function Run(mode: Mode, inv: Invocation, o: Outcome): (r: Result<int, Error>)
    ensures o.NotSpawned? ==> r.Err?
    ensures mode == UnwrapStatus && o.NotSpawned? ==> r.error.Panic?
    ensures mode != UnwrapStatus && o.NotSpawned? ==> r == Err(SpawnFailed(inv.program))
    ensures mode in {StatusOnly, UnwrapStatus} ==> (r.Ok? <==> o.Spawned?)
    ensures mode in {ErrStderr, ErrStdout, ErrStatus} ==> (r.Ok? <==> Succeeded(o))
    ensures r.Ok? ==> r.value == o.code
    ensures mode == ErrStderr && o.Spawned? && o.code != 0 ==> r == Err(CommandFailed(o.stderr))
    ensures mode == ErrStdout && o.Spawned? && o.code != 0 ==> r == Err(CommandFailed(o.stdout))
    ensures mode == ErrStatus && o.Spawned? && o.code != 0 ==> r == Err(ExitStatus(o.code))
  {
    match o
    case NotSpawned =>
      if mode == UnwrapStatus then Err(Panic("status() on a program that cannot be spawned"))
      else Err(SpawnFailed(inv.program))
    case Spawned(code, out, err) =>
      if code == 0 || mode == StatusOnly || mode == UnwrapStatus then Ok(code)
      else if mode == ErrStderr then Err(CommandFailed(err))
      else if mode == ErrStdout then Err(CommandFailed(out))
      else Err(ExitStatus(code))
  }

  /** One step of a build: an invocation and the policy its result is read
      with. */
  datatype Step = Step(mode: Mode, inv: Invocation)

  function RunStep(exec: Exec, s: Step): Result<int, Error> {
    Run(s.mode, s.inv, exec(s.inv))
  }
}
