/** Running the provisioning scripts (internal/runner/runner.go). */
module Runner {
  import opened Sys
  import opened Config

  /** What running one script leaves in the log, and its boolean verdict. */
  datatype Run = Run(events: seq<Event>, ok: bool)

  function ScriptPath(cfg: Settings, name: string): (p: Path)
    ensures Dir(p) == cfg.scriptsDir && Base(p) == name
  {
    Join(cfg.scriptsDir, name)
  }

  /** bash <script path> <extra args...>, run in the project root. */
  function ScriptSpec(cfg: Settings, name: string, extra: seq<string>): (spec: ProcessSpec)
    ensures spec.program == "bash" && spec.dir == Some(cfg.projectRoot)
    ensures |spec.args| == 1 + |extra| && spec.args[0] == PathArg(ScriptPath(cfg, name))
    ensures forall i :: 0 <= i < |extra| ==> spec.args[1 + i] == Text(extra[i])
  {
    ProcessSpec("bash", [PathArg(ScriptPath(cfg, name))] + Texts(extra), Some(cfg.projectRoot))
  }

  /** ExecuteScript(name, extra...): a missing script is reported and nothing
      runs; otherwise the verdict is whether bash exits with status 0. */
  function Execute(cfg: Settings, files: map<Path, Bytes>, status: Oracle, name: string, extra: seq<string>): (r: Run)
    ensures ScriptPath(cfg, name) !in files ==> r == Run([ScriptNotFound(ScriptPath(cfg, name))], false)
    ensures ScriptPath(cfg, name) in files ==>
              r.events == [Spawn(ScriptSpec(cfg, name, extra))] &&
              (r.ok <==> status(ScriptSpec(cfg, name, extra)).Succeeded())
  {
    var path := ScriptPath(cfg, name);
    if path !in files then Run([ScriptNotFound(path)], false)
    else
      var spec := ScriptSpec(cfg, name, extra);
      Run([Spawn(spec)], status(spec).Succeeded())
  }

  method ExecuteScript(h: Host, cfg: Settings, status: Oracle, name: string, extra: seq<string>) returns (ok: bool)
    modifies h`log
    ensures h.log == old(h.log) + Execute(cfg, h.files, status, name, extra).events
    ensures ok == Execute(cfg, h.files, status, name, extra).ok
  {
    var scriptPath := ScriptPath(cfg, name);
    if scriptPath !in h.files {
      h.log := h.log + [ScriptNotFound(scriptPath)];
      return false;
    }
    var command := ScriptSpec(cfg, name, extra);
    h.log := h.log + [Spawn(command)];
    ok := status(command).Succeeded();
  }

  /** The process ExecuteScript builds with the one parameter it declares:
      exec.Command("bash", scriptPath), whatever its callers pass besides. */
  function DeclaredSpec(cfg: Settings, name: string): ProcessSpec {
    ProcessSpec("bash", [PathArg(ScriptPath(cfg, name))], Some(cfg.projectRoot))
  }

  /** Under the declared signature the extra arguments never reach the
      child: the process is the one started with none. */
  lemma DeclaredSpecDropsExtraArgs(cfg: Settings, name: string, extra: seq<string>)
    requires extra != []
    ensures DeclaredSpec(cfg, name) == ScriptSpec(cfg, name, [])
    ensures DeclaredSpec(cfg, name) != ScriptSpec(cfg, name, extra)
  {
    assert Texts([]) == [];
    assert |ScriptSpec(cfg, name, extra).args| == 1 + |extra|;
  }

  // ---------------------------------------------------------------------
  // Cleanup

  const CleanupScript := "cleanup_resources.sh"
  const ForceFlag := "--force"

  /** bash cleanup_resources.sh [--force], run in the project root. */
  function CleanupSpec(cfg: Settings, force: bool): (spec: ProcessSpec)
    ensures spec == ScriptSpec(cfg, CleanupScript, if force then [ForceFlag] else [])
  {
    ProcessSpec("bash", [PathArg(ScriptPath(cfg, CleanupScript))] + (if force then [Text(ForceFlag)] else []),
                Some(cfg.projectRoot))
  }

  /** Cleanup: the script is started without an existence check; the
      result is the success or failure message's choice. */
  method Cleanup(h: Host, cfg: Settings, status: Oracle, force: bool) returns (ok: bool)
    modifies h`log
    ensures h.log == old(h.log) + [Spawn(CleanupSpec(cfg, force))]
    ensures ok == status(CleanupSpec(cfg, force)).Succeeded()
  {
    var scriptPath := ScriptPath(cfg, CleanupScript);
    var args := [PathArg(scriptPath)];
    if force {
      args := args + [Text(ForceFlag)];
    }
    var command := ProcessSpec("bash", args, Some(cfg.projectRoot));
    assert command.args == CleanupSpec(cfg, force).args;
    h.log := h.log + [Spawn(command)];
    ok := status(command).Succeeded();
  }
}
