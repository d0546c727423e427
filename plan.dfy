/** The dry-run preview (cmd/aws-automator/commands/plan.go). */
module Plan {
  import opened Sys
  import opened Config
  import opened Runner
  import opened Aws
  import opened Auto

  /** The flag every previewed script is given. */
  const DryRunFlag := "--dry-run"

  /** The creation sequence as a preview: the same steps in the same order,
      each given "--dry-run", with no settle delay. */
  function AutoPlan(cfg: Settings, files: map<Path, Bytes>, status: Oracle): Run {
    RunSequence(cfg, files, status, CreationSteps, [DryRunFlag], false)
  }

  /** runAutoPlan: the preview stops at the first step that fails;
      `complete` is whether the completion message is printed. */
  method RunAutoPlan(h: Host, cfg: Settings, status: Oracle) returns (complete: bool)
    modifies h`log
    ensures h.log == old(h.log) + AutoPlan(cfg, h.files, status).events
    ensures complete == AutoPlan(cfg, h.files, status).ok
  {
    complete := RunSteps(h, cfg, status, CreationSteps, [DryRunFlag], false);
  }

  /** What runPlan does once the credentials pass: the one selected script,
      or the whole preview for "all", or nothing for an unknown value. */
  function PlanSelected(cfg: Settings, files: map<Path, Bytes>, status: Oracle, resource: string): seq<Event> {
    match ResourceScript(resource)
    case Some(script) => Execute(cfg, files, status, script, [DryRunFlag]).events
    case None => if resource == DefaultResource then AutoPlan(cfg, files, status).events else []
  }

  /** runPlan's log: the credential probe, then the selection if it passes. */
  function PlanEvents(cfg: Settings, files: map<Path, Bytes>, status: Oracle, resource: string): seq<Event> {
    [Spawn(ProbeSpec)] + if CredentialsOk(status) then PlanSelected(cfg, files, status, resource) else []
  }

  /** The switch on the resource value; `known` is false for the value the
      error message names. */
  method PlanResource(h: Host, cfg: Settings, status: Oracle, resource: string) returns (known: bool)
    modifies h`log
    ensures h.log == old(h.log) + PlanSelected(cfg, h.files, status, resource)
    ensures known <==> ResourceScript(resource).Some? || resource == DefaultResource
  {
    known := true;
    if resource == "sg" {
      var _ := ExecuteScript(h, cfg, status, SecurityGroupScript, [DryRunFlag]);
    } else if resource == "ec2" {
      var _ := ExecuteScript(h, cfg, status, Ec2Script, [DryRunFlag]);
    } else if resource == "s3" {
      var _ := ExecuteScript(h, cfg, status, S3BucketScript, [DryRunFlag]);
    } else if resource == DefaultResource {
      var _ := RunAutoPlan(h, cfg, status);
    } else {
      known := false;
    }
  }

  method RunPlan(h: Host, cfg: Settings, status: Oracle, flag: Option<string>) returns (report: Report)
    modifies h`log
    ensures h.log == old(h.log) + PlanEvents(cfg, h.files, status, flag.GetOr(DefaultResource))
    ensures report == DispatchReport(status, flag.GetOr(DefaultResource))
  {
    var credentialsOk := CheckCredentials(h, status);
    if !credentialsOk {
      return NoCredentials;
    }
    var resource := flag.GetOr(DefaultResource);
    var known := PlanResource(h, cfg, status, resource);
    report := if known then Dispatched else UnknownResource(resource);
  }

  // ---------------------------------------------------------------------
  // Properties of runPlan

  /** Without valid credentials runPlan stops after the probe: no script
      runs, whatever the resource value, and the refusal is reported. */
  lemma PlanWithoutCredentials(cfg: Settings, files: map<Path, Bytes>, status: Oracle, resource: string)
    requires !CredentialsOk(status)
    ensures PlanEvents(cfg, files, status, resource) == [Spawn(ProbeSpec)]
    ensures DispatchReport(status, resource) == NoCredentials
  {
  }

  /** Every script the preview starts, for any resource value, is given
      exactly "--dry-run" and nothing else. */
  lemma PlanAlwaysDryRun(cfg: Settings, files: map<Path, Bytes>, status: Oracle, resource: string)
    ensures ScriptsGiven(PlanEvents(cfg, files, status, resource), [DryRunFlag])
  {
    var tail := PlanEvents(cfg, files, status, resource)[1..];
    assert PlanEvents(cfg, files, status, resource) == [Spawn(ProbeSpec)] + tail;
    if CredentialsOk(status) {
      match ResourceScript(resource)
      case Some(script) =>
        ExecuteGivesExtra(cfg, files, status, script, [DryRunFlag]);
      case None =>
        SequenceShape(cfg, files, status, CreationSteps, [DryRunFlag], false);
    }
    ScriptsGivenAppend([Spawn(ProbeSpec)], tail, [DryRunFlag]);
  }

  /** The preview never waits and never shows the status table. */
  lemma PlanNeverSleepsOrShowsStatus(cfg: Settings, files: map<Path, Bytes>, status: Oracle, resource: string)
    ensures Sleeps(PlanEvents(cfg, files, status, resource)) == 0
    ensures ShowStatus !in PlanEvents(cfg, files, status, resource)
  {
    var tail := PlanEvents(cfg, files, status, resource)[1..];
    assert PlanEvents(cfg, files, status, resource) == [Spawn(ProbeSpec)] + tail;
    if CredentialsOk(status) {
      match ResourceScript(resource)
      case Some(script) =>
        ExecuteAttempts(cfg, files, status, script, [DryRunFlag]);
      case None =>
        SequenceSleeps(cfg, files, status, CreationSteps, [DryRunFlag], false);
        SequenceShape(cfg, files, status, CreationSteps, [DryRunFlag], false);
    }
    SleepsAppend([Spawn(ProbeSpec)], tail);
  }

  /** "all" previews the creation scripts in the creation order, up to and
      including the first whose preview fails. */
  lemma PlanAllAttemptsInOrder(cfg: Settings, files: map<Path, Bytes>, status: Oracle)
    requires CredentialsOk(status)
    ensures Attempted(PlanEvents(cfg, files, status, DefaultResource))
            == ScriptPaths(cfg, CreationSteps)[..Attempts(cfg, files, status, CreationSteps, [DryRunFlag])]
  {
    var r := AutoPlan(cfg, files, status);
    SequenceAttemptsPrefix(cfg, files, status, CreationSteps, [DryRunFlag], false);
    AttemptedAppend([Spawn(ProbeSpec)], r.events);
  }

  /** The completion message is printed exactly when all three previews
      succeed. */
  lemma PlanCompleteIffAllPass(cfg: Settings, files: map<Path, Bytes>, status: Oracle)
    ensures AutoPlan(cfg, files, status).ok <==> Passed(cfg, files, status, CreationSteps, [DryRunFlag]) == 3
  {
    SequenceOkIffAllPass(cfg, files, status, CreationSteps, [DryRunFlag], false);
  }

  /** A single resource previews its one script and nothing else. */
  lemma PlanSingleResource(cfg: Settings, files: map<Path, Bytes>, status: Oracle, resource: string)
    requires CredentialsOk(status) && ResourceScript(resource).Some?
    ensures Attempted(PlanEvents(cfg, files, status, resource)) == [ScriptPath(cfg, ResourceScript(resource).value)]
  {
    var script := ResourceScript(resource).value;
    ExecuteAttempts(cfg, files, status, script, [DryRunFlag]);
    AttemptedAppend([Spawn(ProbeSpec)], Execute(cfg, files, status, script, [DryRunFlag]).events);
  }

  /** An unknown resource value runs nothing after the probe and is
      reported. */
  lemma PlanUnknownRunsNothing(cfg: Settings, files: map<Path, Bytes>, status: Oracle, resource: string)
    requires CredentialsOk(status) && ResourceScript(resource).None? && resource != DefaultResource
    ensures PlanEvents(cfg, files, status, resource) == [Spawn(ProbeSpec)]
    ensures DispatchReport(status, resource) == UnknownResource(resource)
  {
  }
}
