/** Resource creation by name (cmd/aws-automator/commands/create.go). */
module Create {
  import opened Sys
  import opened Config
  import opened Runner
  import opened Aws
  import opened Auto
  import opened Plan

  /** What runCreate does once the credentials pass: the one selected
      script with no extra arguments, or all of runAuto for "all", or
      nothing for an unknown value. */
  function CreateSelected(cfg: Settings, files: map<Path, Bytes>, status: Oracle, resource: string): seq<Event> {
    match ResourceScript(resource)
    case Some(script) => Execute(cfg, files, status, script, []).events
    case None => if resource == DefaultResource then AutoEvents(cfg, files, status) else []
  }

  /** runCreate's log: the credential probe, then the selection if it passes. */
  function CreateEvents(cfg: Settings, files: map<Path, Bytes>, status: Oracle, resource: string): seq<Event> {
    [Spawn(ProbeSpec)] + if CredentialsOk(status) then CreateSelected(cfg, files, status, resource) else []
  }

  /** The switch on the resource value; `known` is false for the value the
      error message names. */
  method CreateResource(h: Host, cfg: Settings, status: Oracle, resource: string) returns (known: bool)
    modifies h`log
    ensures h.log == old(h.log) + CreateSelected(cfg, h.files, status, resource)
    ensures known <==> ResourceScript(resource).Some? || resource == DefaultResource
  {
    known := true;
    if resource == "sg" {
      var _ := ExecuteScript(h, cfg, status, SecurityGroupScript, []);
    } else if resource == "ec2" {
      var _ := ExecuteScript(h, cfg, status, Ec2Script, []);
    } else if resource == "s3" {
      var _ := ExecuteScript(h, cfg, status, S3BucketScript, []);
    } else if resource == DefaultResource {
      RunAuto(h, cfg, status);
    } else {
      known := false;
    }
  }

  method RunCreate(h: Host, cfg: Settings, status: Oracle, flag: Option<string>) returns (report: Report)
    modifies h`log
    ensures h.log == old(h.log) + CreateEvents(cfg, h.files, status, flag.GetOr(DefaultResource))
    ensures report == DispatchReport(status, flag.GetOr(DefaultResource))
  {
    var credentialsOk := CheckCredentials(h, status);
    if !credentialsOk {
      return NoCredentials;
    }
    var resource := flag.GetOr(DefaultResource);
    var known := CreateResource(h, cfg, status, resource);
    report := if known then Dispatched else UnknownResource(resource);
  }

  // ---------------------------------------------------------------------
  // Properties of runCreate

  /** Without valid credentials runCreate stops after the probe: no script
      runs, whatever the resource value, and the refusal is reported. */
  lemma CreateWithoutCredentials(cfg: Settings, files: map<Path, Bytes>, status: Oracle, resource: string)
    requires !CredentialsOk(status)
    ensures CreateEvents(cfg, files, status, resource) == [Spawn(ProbeSpec)]
    ensures DispatchReport(status, resource) == NoCredentials
  {
  }

  /** "all" is runAuto after a probe of its own: with valid credentials the
      probe runs twice before any script. */
  lemma CreateAllProbesTwice(cfg: Settings, files: map<Path, Bytes>, status: Oracle)
    requires CredentialsOk(status)
    ensures |CreateEvents(cfg, files, status, DefaultResource)| >= 2
    ensures CreateEvents(cfg, files, status, DefaultResource)[..2] == [Spawn(ProbeSpec), Spawn(ProbeSpec)]
    ensures CreateEvents(cfg, files, status, DefaultResource)[1..] == AutoEvents(cfg, files, status)
  {
    assert CreateEvents(cfg, files, status, DefaultResource) == [Spawn(ProbeSpec)] + AutoEvents(cfg, files, status);
  }

  /** Creation never passes the scripts any argument, for any resource value. */
  lemma CreateNeverPassesArguments(cfg: Settings, files: map<Path, Bytes>, status: Oracle, resource: string)
    ensures ScriptsGiven(CreateEvents(cfg, files, status, resource), [])
  {
    var selected := if CredentialsOk(status) then CreateSelected(cfg, files, status, resource) else [];
    if CredentialsOk(status) {
      match ResourceScript(resource)
      case Some(script) =>
        ExecuteGivesExtra(cfg, files, status, script, []);
      case None =>
        if resource == DefaultResource {
          var r := RunSequence(cfg, files, status, CreationSteps, [], true);
          var tail := if r.ok then [ShowStatus] else [];
          SequenceShape(cfg, files, status, CreationSteps, [], true);
          ScriptsGivenAppend(r.events, tail, []);
          ScriptsGivenAppend([Spawn(ProbeSpec)], r.events + tail, []);
        }
    }
    ScriptsGivenAppend([Spawn(ProbeSpec)], selected, []);
  }

  /** A single resource creates with the script its preview runs: the same
      path, without "--dry-run". */
  lemma CreateAndPlanSameScript(cfg: Settings, files: map<Path, Bytes>, status: Oracle, resource: string)
    requires CredentialsOk(status) && ResourceScript(resource).Some?
    ensures Attempted(CreateEvents(cfg, files, status, resource)) == Attempted(PlanEvents(cfg, files, status, resource))
            == [ScriptPath(cfg, ResourceScript(resource).value)]
  {
    var script := ResourceScript(resource).value;
    ExecuteAttempts(cfg, files, status, script, []);
    AttemptedAppend([Spawn(ProbeSpec)], Execute(cfg, files, status, script, []).events);
    PlanSingleResource(cfg, files, status, resource);
  }

  /** A single resource never waits and never shows the status table. */
  lemma CreateSingleIsQuiet(cfg: Settings, files: map<Path, Bytes>, status: Oracle, resource: string)
    requires ResourceScript(resource).Some?
    ensures Sleeps(CreateEvents(cfg, files, status, resource)) == 0
    ensures ShowStatus !in CreateEvents(cfg, files, status, resource)
  {
    var script := ResourceScript(resource).value;
    var selected := if CredentialsOk(status) then Execute(cfg, files, status, script, []).events else [];
    ExecuteAttempts(cfg, files, status, script, []);
    SleepsAppend([Spawn(ProbeSpec)], selected);
  }

  /** An unknown resource value runs nothing after the probe and is
      reported. */
  lemma CreateUnknownRunsNothing(cfg: Settings, files: map<Path, Bytes>, status: Oracle, resource: string)
    requires CredentialsOk(status) && ResourceScript(resource).None? && resource != DefaultResource
    ensures CreateEvents(cfg, files, status, resource) == [Spawn(ProbeSpec)]
    ensures DispatchReport(status, resource) == UnknownResource(resource)
  {
  }
}
