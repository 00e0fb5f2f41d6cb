/** The `src/lib/workspace.rs` workspace: targets of the `src/lib/target`
    revision, and "all" or "." as the names that build everything. */
module LibWorkspace {
  import opened Wrappers
  import opened Errors
  import opened Process
  import opened Assets
  import opened MsvcEnv
  import MsvcCompiler
  import LibTarget
  import Workspaces

  type Workspace = Workspaces.Workspace<LibTarget.Target>

  /** The requested target names that build every registered target. */
  const Everything: set<string> := {"all", "."}

  /** The machine a build runs on: whether it is Windows, processes without
      and with an environment, the MSVC host and the MSVC scratch files. */
  datatype Machine = Machine(
    windows: bool,
    exec: Exec,
    envExec: MsvcCompiler.EnvExec,
    host: Host,
    scratch: MsvcCompiler.Scratch)

  /** What a target's `build` sees of the workspace it is handed. */
  function SiteOf(w: Workspace, m: Machine): LibTarget.Site {
    LibTarget.Site(w.numakeDir, w.output, m.windows, m.exec, m.envExec, m.host, m.scratch)
  }

  /** `register_target`: keyed by the target's own name. */
  function RegisterTarget(w: Workspace, t: LibTarget.Target): (r: Workspace)
    ensures LibTarget.GetName(t) in r.targets && r.targets[LibTarget.GetName(t)] == t
    ensures r.targets.Keys == w.targets.Keys + {LibTarget.GetName(t)}
    ensures forall n :: n in w.targets && n != LibTarget.GetName(t) ==> r.targets[n] == w.targets[n]
  {
    Workspaces.Register(w, t, LibTarget.GetName)
  }

  function Builder(w: Workspace, m: Machine): LibTarget.Target -> Result<(), Error> {
    t => LibTarget.BuildTarget(SiteOf(w, m), t)
  }

  /** `build`, with the registered names in the map's iteration order. */
  function Build(w: Workspace, m: Machine, order: seq<string>): Result<(), Error>
    requires IsEnumeration(order, w.targets.Keys)
  {
    Workspaces.Build(w, Everything, order, Builder(w, m))
  }

  /** "all" and "." build every registered target and succeed exactly when
      each of them builds; a failure is some registered target's failure.
      Any other name, "*" included, builds that target alone, and an
      unregistered one is `TargetNotFound`. */
  lemma {:induction false} BuildSpec(w: Workspace, m: Machine, order: seq<string>)
    requires IsEnumeration(order, w.targets.Keys)
    ensures w.target == "all" || w.target == "." ==>
              (Build(w, m, order).Ok? <==>
                 forall n :: n in w.targets ==> LibTarget.BuildTarget(SiteOf(w, m), w.targets[n]).Ok?)
    ensures (w.target == "all" || w.target == ".") && Build(w, m, order).Err? ==>
              exists n :: n in w.targets && LibTarget.BuildTarget(SiteOf(w, m), w.targets[n]) == Build(w, m, order)
    ensures w.target != "all" && w.target != "." && w.target !in w.targets ==>
              Build(w, m, order) == Err(TargetNotFound)
    ensures w.target != "all" && w.target != "." && w.target in w.targets ==>
              Build(w, m, order) == LibTarget.BuildTarget(SiteOf(w, m), w.targets[w.target])
  {
    var b := Builder(w, m);
    Workspaces.BuildSpec(w, Everything, order, b);
    assert forall n :: n in w.targets ==> b(w.targets[n]) == LibTarget.BuildTarget(SiteOf(w, m), w.targets[n]);
  }
}
