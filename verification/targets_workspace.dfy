/** The `src/workspace.rs` workspace: targets of the `src/targets`
    revision, and "all" or "*" as the names that build everything. Its
    compiler, linker and output settings reach every target's build. */
module TargetsWorkspace {
  import opened Wrappers
  import opened Errors
  import opened Process
  import opened Assets
  import Targets
  import Workspaces

  type Workspace = Workspaces.Workspace<Targets.Target>

  /** The requested target names that build every registered target. */
  const Everything: set<string> := {"all", "*"}

  /** What a target's `build` sees of the workspace it is handed. */
  function SiteOf(w: Workspace, exec: Exec): (s: Targets.Site)
    ensures s.numakeDir == w.numakeDir && s.compiler == w.compiler && s.linker == w.linker && s.output == w.output
  {
    Targets.Site(w.numakeDir, w.compiler, w.linker, w.output, exec)
  }

  /** `register_target`: keyed by the target's own name. */
  function RegisterTarget(w: Workspace, t: Targets.Target): (r: Workspace)
    ensures Targets.GetName(t) in r.targets && r.targets[Targets.GetName(t)] == t
    ensures r.targets.Keys == w.targets.Keys + {Targets.GetName(t)}
    ensures forall n :: n in w.targets && n != Targets.GetName(t) ==> r.targets[n] == w.targets[n]
  {
    Workspaces.Register(w, t, Targets.GetName)
  }

  function Builder(w: Workspace, exec: Exec): Targets.Target -> Result<(), Error> {
    t => Targets.BuildTarget(SiteOf(w, exec), t)
  }

  /** `build`, with the registered names in the map's iteration order. */
  function Build(w: Workspace, exec: Exec, order: seq<string>): Result<(), Error>
    requires IsEnumeration(order, w.targets.Keys)
  {
    Workspaces.Build(w, Everything, order, Builder(w, exec))
  }

  /** "all" and "*" build every registered target and succeed exactly when
      each of them builds; a failure is some registered target's failure.
      Any other name, "." included, builds that target alone, and an
      unregistered one is `TargetNotFound`. */
  lemma {:induction false} BuildSpec(w: Workspace, exec: Exec, order: seq<string>)
    requires IsEnumeration(order, w.targets.Keys)
    ensures w.target == "all" || w.target == "*" ==>
              (Build(w, exec, order).Ok? <==>
                 forall n :: n in w.targets ==> Targets.BuildTarget(SiteOf(w, exec), w.targets[n]).Ok?)
    ensures (w.target == "all" || w.target == "*") && Build(w, exec, order).Err? ==>
              exists n :: n in w.targets && Targets.BuildTarget(SiteOf(w, exec), w.targets[n]) == Build(w, exec, order)
    ensures w.target != "all" && w.target != "*" && w.target !in w.targets ==>
              Build(w, exec, order) == Err(TargetNotFound)
    ensures w.target != "all" && w.target != "*" && w.target in w.targets ==>
              Build(w, exec, order) == Targets.BuildTarget(SiteOf(w, exec), w.targets[w.target])
  {
    var b := Builder(w, exec);
    Workspaces.BuildSpec(w, Everything, order, b);
    assert forall n :: n in w.targets ==> b(w.targets[n]) == Targets.BuildTarget(SiteOf(w, exec), w.targets[n]);
  }

  /** The workspace's compiler reaches a generic target's build even when
      the target names none of its own: with the workspace's tools set, a
      generic target never fails for a missing tool. */
  lemma WorkspaceToolsSuffice(w: Workspace, exec: Exec, g: Targets.GenericTarget)
    requires w.compiler.Some? && w.linker.Some?
    ensures Targets.GenericToolsAsWritten(SiteOf(w, exec), g) == Ok((w.compiler.value, w.linker.value))
    ensures Targets.GenericTools(SiteOf(w, exec), g) == Ok((w.compiler.value, w.linker.value))
  {
  }
}
