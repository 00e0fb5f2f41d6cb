/** The custom target of the intermediate revisions
    (`src/lib/target/custom.rs` and `src/targets/custom_target.rs`): a
    name, a description and the targets it builds, in order. The two
    revisions differ only in which targets it can hold, so that is a type
    parameter here; building it belongs to each revision's `BuildTarget`. */
module CustomTargets {
  import opened Wrappers
  import opened Errors
  import opened Process

  datatype CustomTarget<T> = CustomTarget(name: string, description: string, subTargets: seq<T>)

  /** `CustomTarget::new`: no sub-targets yet. */
  function New<T>(name: string, description: string): (c: CustomTarget<T>)
    ensures c.name == name && c.description == description && c.subTargets == []
  {
    CustomTarget(name, description, [])
  }

  /** The `sub_targets` setter replaces the whole list. */
  function SetSubTargets<T>(c: CustomTarget<T>, ts: seq<T>): (r: CustomTarget<T>)
    ensures r.subTargets == ts && r.name == c.name && r.description == c.description
  {
    c.(subTargets := ts)
  }

  /** `execute` runs nothing: whatever it is given, it reports the default
      exit status 0. */
  function Execute<T>(c: CustomTarget<T>, inv: Invocation): (r: Result<int, Error>)
    ensures r.Ok? && r.value == 0
  {
    Ok(0)
  }
}
