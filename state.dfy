/** The remote-state subcommands init, pull, push and show
    (cmd/aws-automator/commands/state.go). */
module State {
  import opened Sys
  import opened Config
  import opened Runner
  import opened Tracker

  // ---------------------------------------------------------------------
  // state init

  const InitScript := "init_state.sh"

  /** The bucket-creation script's arguments: the bucket, then the region
      only when one was given. */
  function InitScriptArgs(bucket: string, region: string): (args: seq<string>)
    ensures |args| == if region == "" then 2 else 4
    ensures args[..2] == ["--bucket", bucket]
    ensures region != "" ==> args[2..] == ["--region", region]
  {
    var args := ["--bucket", bucket];
    if region != "" then args + ["--region", region] else args
  }

  /** runStateInit: the bucket flag is required, so this runs only with one
      given (possibly empty); the script's verdict is not reported. */
  method RunStateInit(h: Host, cfg: Settings, status: Oracle, bucket: string, region: string)
    modifies h`log
    ensures h.log == old(h.log) + Execute(cfg, h.files, status, InitScript, InitScriptArgs(bucket, region)).events
  {
    var scriptArgs := ["--bucket", bucket];
    if region != "" {
      scriptArgs := scriptArgs + ["--region", region];
    }
    var _ := ExecuteScript(h, cfg, status, InitScript, scriptArgs);
  }

  /** The init script is started with the bucket and, when given, the
      region, each after its flag. */
  lemma InitPassesBucketAndRegion(cfg: Settings, files: map<Path, Bytes>, status: Oracle, bucket: string, region: string)
    requires ScriptPath(cfg, InitScript) in files
    ensures var spec := ScriptSpec(cfg, InitScript, InitScriptArgs(bucket, region));
            && Execute(cfg, files, status, InitScript, InitScriptArgs(bucket, region)).events == [Spawn(spec)]
            && spec.args[1..3] == [Text("--bucket"), Text(bucket)]
            && (region != "" <==> |spec.args| == 5)
            && (region != "" ==> spec.args[3..] == [Text("--region"), Text(region)])
  {
    var args := InitScriptArgs(bucket, region);
    var spec := ScriptSpec(cfg, InitScript, args);
    assert spec.args[1] == Text(args[0]) && spec.args[2] == Text(args[1]);
    if region != "" {
      assert spec.args[3] == Text(args[2]) && spec.args[4] == Text(args[3]);
    }
  }

  // ---------------------------------------------------------------------
  // state pull and state push

  /** What the pull and push subcommands print themselves. */
  datatype Notice = NotConfigured | Failed(message: string) | Done

  function PullNotice(cfg: Settings, status: Oracle): (notice: Notice)
    ensures notice == NotConfigured <==> !IsRemoteStateEnabled(cfg)
    ensures notice.Failed? <==> PullError(cfg, status).Some?
    ensures notice.Failed? ==> notice.message == PullError(cfg, status).value
  {
    if !IsRemoteStateEnabled(cfg) then NotConfigured
    else match PullError(cfg, status)
      case Some(message) => Failed(message)
      case None => Done
  }

  method RunStatePull(h: Host, cfg: Settings, status: Oracle) returns (notice: Notice)
    modifies h`files, h`log
    ensures notice == PullNotice(cfg, status)
    ensures h.log == old(h.log) + PullEvents(cfg)
    ensures h.files == PulledFiles(cfg, old(h.files), h.remote, status)
  {
    if !IsRemoteStateEnabled(cfg) {
      return NotConfigured;
    }
    var err := PullState(h, cfg, status);
    if err.Some? {
      return Failed(err.value);
    }
    return Done;
  }

  /** A pull is reported as failed exactly when remote state is on and the
      download fails with anything but exit status 1. */
  lemma PullFailsOnlyOnRealError(cfg: Settings, status: Oracle)
    ensures PullNotice(cfg, status).Failed? <==>
              IsRemoteStateEnabled(cfg) && !status(PullSpec(cfg)).Succeeded() &&
              !(status(PullSpec(cfg)).Exited? && status(PullSpec(cfg)).code == 1)
  {
  }

  function PushNotice(cfg: Settings, files: map<Path, Bytes>, status: Oracle): (notice: Notice)
    ensures notice == NotConfigured <==> !IsRemoteStateEnabled(cfg)
    ensures notice.Failed? <==> PushError(cfg, files, status).Some?
    ensures notice.Failed? ==> notice.message == PushError(cfg, files, status).value
  {
    if !IsRemoteStateEnabled(cfg) then NotConfigured
    else match PushError(cfg, files, status)
      case Some(message) => Failed(message)
      case None => Done
  }

  method RunStatePush(h: Host, cfg: Settings, status: Oracle) returns (notice: Notice)
    modifies h`remote, h`log
    ensures notice == PushNotice(cfg, h.files, status)
    ensures h.log == old(h.log) + PushEvents(cfg, h.files)
    ensures h.remote == PushedRemote(cfg, h.files, old(h.remote), status)
  {
    if !IsRemoteStateEnabled(cfg) {
      return NotConfigured;
    }
    var err := PushState(h, cfg, status);
    if err.Some? {
      return Failed(err.value);
    }
    return Done;
  }

  /** With remote state off, neither subcommand starts anything or changes
      a file or an object; each only prints the configuration hint. */
  lemma DisabledPullAndPushDoNothing(cfg: Settings, files: map<Path, Bytes>, remote: map<string, Bytes>, status: Oracle)
    requires !IsRemoteStateEnabled(cfg)
    ensures PullNotice(cfg, status) == NotConfigured && PushNotice(cfg, files, status) == NotConfigured
    ensures PullEvents(cfg) == [] && PushEvents(cfg, files) == []
    ensures PulledFiles(cfg, files, remote, status) == files
    ensures PushedRemote(cfg, files, remote, status) == remote
  {
  }

  /** A push with no local state file is refused before anything is
      started, and the remote store is left alone. */
  lemma PushWithoutLocalState(cfg: Settings, files: map<Path, Bytes>, remote: map<string, Bytes>, status: Oracle)
    requires IsRemoteStateEnabled(cfg) && cfg.trackerFile !in files
    ensures PushNotice(cfg, files, status) == Failed(NoLocalState)
    ensures PushEvents(cfg, files) == []
    ensures PushedRemote(cfg, files, remote, status) == remote
  {
  }

  /** Pushing and then pulling through the two subcommands reports success
      twice and leaves the local files as they were. */
  lemma PushThenPullCommands(cfg: Settings, files: map<Path, Bytes>, remote: map<string, Bytes>, status: Oracle)
    requires IsRemoteStateEnabled(cfg) && cfg.trackerFile in files
    requires status(PushSpec(cfg)).Succeeded() && status(PullSpec(cfg)).Succeeded()
    ensures PushNotice(cfg, files, status) == Done
    ensures PullNotice(cfg, status) == Done
    ensures PulledFiles(cfg, files, PushedRemote(cfg, files, remote, status), status) == files
  {
    PushThenPullRestores(cfg, files, remote, status);
  }

  // ---------------------------------------------------------------------
  // state show

  /** The configuration runStateShow prints when remote state is on. */
  datatype RemoteView = RemoteView(bucket: string, key: string, region: string, uri: string)

  function StateShow(cfg: Settings): (view: Option<RemoteView>)
    ensures view.Some? <==> IsRemoteStateEnabled(cfg)
    ensures view.Some? ==> view.value.bucket == cfg.bucket && view.value.key == cfg.key &&
                           view.value.region == cfg.region
  {
    if IsRemoteStateEnabled(cfg)
    then Some(RemoteView(cfg.bucket, cfg.key, cfg.region, "s3://" + cfg.bucket + "/" + cfg.key))
    else None
  }

  /** The URI and region shown are those pull downloads from and push
      uploads to. */
  lemma ShownUriIsPullSourceAndPushTarget(cfg: Settings)
    requires IsRemoteStateEnabled(cfg)
    ensures var view := StateShow(cfg).value;
            && PullSpec(cfg).args[2] == Text(view.uri) && PullSpec(cfg).args[5] == Text(view.region)
            && PushSpec(cfg).args[3] == Text(view.uri) && PushSpec(cfg).args[5] == Text(view.region)
  {
  }
}
