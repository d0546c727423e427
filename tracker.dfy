/** The resource tracker and its optional S3 mirror
    (internal/tracker/tracker.go). */
module Tracker {
  import opened Sys
  import opened Config

  /** The persisted record of created resource IDs. */
  datatype ResourceTracker = ResourceTracker(
    instances: seq<string>,
    securityGroups: seq<string>,
    keyPairs: seq<string>,
    s3Buckets: seq<string>)

  /** Go's zero value: four empty (nil) lists. */
  const Empty := ResourceTracker([], [], [], [])

  /** The abstract stand-in for json.Unmarshal into a zero tracker: None for
      input it rejects outright (the zero tracker is left as it was). */
  type Decoder = Bytes -> Option<ResourceTracker>

  /** The remote object's location, "s3://" + bucket + "/" + key. */
  function S3Uri(cfg: Settings): (uri: string)
    ensures |uri| == 6 + |cfg.bucket| + |cfg.key|
    ensures uri[..5] == "s3://"
    ensures uri[5..5 + |cfg.bucket|] == cfg.bucket
    ensures uri[5 + |cfg.bucket|] == '/'
    ensures uri[6 + |cfg.bucket|..] == cfg.key
  {
    "s3://" + cfg.bucket + "/" + cfg.key
  }

  /** aws s3 cp <source> <destination> --region <region> */
  function CopySpec(source: Arg, destination: Arg, region: string): ProcessSpec {
    ProcessSpec("aws", [Text("s3"), Text("cp"), source, destination, Text("--region"), Text(region)], None)
  }

  function PullSpec(cfg: Settings): ProcessSpec {
    CopySpec(Text(S3Uri(cfg)), PathArg(cfg.trackerFile), cfg.region)
  }

  function PushSpec(cfg: Settings): ProcessSpec {
    CopySpec(PathArg(cfg.trackerFile), Text(S3Uri(cfg)), cfg.region)
  }

  const NoLocalState := "no local state file to push"

  // ---------------------------------------------------------------------
  // PullState

  /** The commands PullState issues: the download, only when remote state is on. */
  function PullEvents(cfg: Settings): (events: seq<Event>)
    ensures |events| <= 1
    ensures events != [] <==> cfg.bucket != ""
    ensures events != [] ==> events[0].Spawn? && events[0].spec.program == "aws" && |events[0].spec.args| == 6 &&
                             events[0].spec.dir.None? &&
                             events[0].spec.args[..2] == [Text("s3"), Text("cp")] &&
                             events[0].spec.args[2] == Text(S3Uri(cfg)) &&
                             events[0].spec.args[3] == PathArg(cfg.trackerFile) &&
                             events[0].spec.args[4..] == [Text("--region"), Text(cfg.region)]
  {
    if IsRemoteStateEnabled(cfg) then [Spawn(PullSpec(cfg))] else []
  }

  /** PullState's error: none when disabled; exit status 0 or 1 ("first run")
      is success whatever the output; anything else carries the output. */
  function PullError(cfg: Settings, status: Oracle): (err: Option<string>)
    ensures err.None? <==>
              !IsRemoteStateEnabled(cfg) ||
              status(PullSpec(cfg)).Succeeded() ||
              (status(PullSpec(cfg)).Exited? && status(PullSpec(cfg)).code == 1)
    ensures err.Some? ==> err.value == "failed to pull state: " + status(PullSpec(cfg)).output
  {
    if !IsRemoteStateEnabled(cfg) then None
    else
      var outcome := status(PullSpec(cfg));
      if outcome.Succeeded() then None
      else if outcome.Exited? && outcome.code == 1 then None
      else Some("failed to pull state: " + outcome.output)
  }

  /** The local files after PullState: a successful download replaces the
      local state file with the remote object. */
  function PulledFiles(cfg: Settings, files: map<Path, Bytes>, remote: map<string, Bytes>, status: Oracle): (after: map<Path, Bytes>)
    ensures forall p :: p != cfg.trackerFile ==> (p in after <==> p in files)
    ensures forall p :: p != cfg.trackerFile && p in files ==> after[p] == files[p]
    ensures cfg.trackerFile in after <==>
              cfg.trackerFile in files ||
              (IsRemoteStateEnabled(cfg) && status(PullSpec(cfg)).Succeeded() && S3Uri(cfg) in remote)
    ensures IsRemoteStateEnabled(cfg) && status(PullSpec(cfg)).Succeeded() && S3Uri(cfg) in remote ==>
              after[cfg.trackerFile] == remote[S3Uri(cfg)]
    ensures !(IsRemoteStateEnabled(cfg) && status(PullSpec(cfg)).Succeeded() && S3Uri(cfg) in remote) ==>
              after == files
  {
    if IsRemoteStateEnabled(cfg) && status(PullSpec(cfg)).Succeeded() && S3Uri(cfg) in remote
    then files[cfg.trackerFile := remote[S3Uri(cfg)]]
    else files
  }

  method PullState(h: Host, cfg: Settings, status: Oracle) returns (err: Option<string>)
    modifies h`files, h`log
    ensures err == PullError(cfg, status)
    ensures h.log == old(h.log) + PullEvents(cfg)
    ensures h.files == PulledFiles(cfg, old(h.files), h.remote, status)
  {
    if !IsRemoteStateEnabled(cfg) {
      return None;
    }
    var spec := PullSpec(cfg);
    h.log := h.log + [Spawn(spec)];
    var outcome := status(spec);
    if !outcome.Succeeded() {
      if outcome.Exited? && outcome.code == 1 {
        return None;
      }
      return Some("failed to pull state: " + outcome.output);
    }
    var uri := S3Uri(cfg);
    if uri in h.remote {
      h.files := h.files[cfg.trackerFile := h.remote[uri]];
    }
    return None;
  }

  // ---------------------------------------------------------------------
  // PushState

  /** The commands PushState issues: the upload, only when remote state is
      on and there is a local state file. */
  function PushEvents(cfg: Settings, files: map<Path, Bytes>): (events: seq<Event>)
    ensures |events| <= 1
    ensures events != [] <==> cfg.bucket != "" && cfg.trackerFile in files
    ensures events != [] ==> events[0].Spawn? && events[0].spec.program == "aws" && |events[0].spec.args| == 6 &&
                             events[0].spec.dir.None? &&
                             events[0].spec.args[..2] == [Text("s3"), Text("cp")] &&
                             events[0].spec.args[2] == PathArg(cfg.trackerFile) &&
                             events[0].spec.args[3] == Text(S3Uri(cfg)) &&
                             events[0].spec.args[4..] == [Text("--region"), Text(cfg.region)]
  {
    if IsRemoteStateEnabled(cfg) && cfg.trackerFile in files then [Spawn(PushSpec(cfg))] else []
  }

  function PushError(cfg: Settings, files: map<Path, Bytes>, status: Oracle): (err: Option<string>)
    ensures !IsRemoteStateEnabled(cfg) ==> err.None?
    ensures IsRemoteStateEnabled(cfg) && cfg.trackerFile !in files ==> err == Some(NoLocalState)
    ensures IsRemoteStateEnabled(cfg) && cfg.trackerFile in files ==>
              (err.None? <==> status(PushSpec(cfg)).Succeeded())
    ensures IsRemoteStateEnabled(cfg) && cfg.trackerFile in files && err.Some? ==>
              err.value == "failed to push state: " + status(PushSpec(cfg)).output
  {
    if !IsRemoteStateEnabled(cfg) then None
    else if cfg.trackerFile !in files then Some(NoLocalState)
    else if status(PushSpec(cfg)).Succeeded() then None
    else Some("failed to push state: " + status(PushSpec(cfg)).output)
  }

  /** The remote objects after PushState: a successful upload replaces the
      object at the configured URI with the local state file. */
  function PushedRemote(cfg: Settings, files: map<Path, Bytes>, remote: map<string, Bytes>, status: Oracle): (after: map<string, Bytes>)
    ensures forall u :: u != S3Uri(cfg) ==> (u in after <==> u in remote)
    ensures forall u :: u != S3Uri(cfg) && u in remote ==> after[u] == remote[u]
    ensures PushError(cfg, files, status).None? && IsRemoteStateEnabled(cfg) ==>
              S3Uri(cfg) in after && after[S3Uri(cfg)] == files[cfg.trackerFile]
    ensures PushError(cfg, files, status).Some? ==> after == remote
    ensures !IsRemoteStateEnabled(cfg) ==> after == remote
  {
    if IsRemoteStateEnabled(cfg) && cfg.trackerFile in files && status(PushSpec(cfg)).Succeeded()
    then remote[S3Uri(cfg) := files[cfg.trackerFile]]
    else remote
  }

  method PushState(h: Host, cfg: Settings, status: Oracle) returns (err: Option<string>)
    modifies h`remote, h`log
    ensures err == PushError(cfg, h.files, status)
    ensures h.log == old(h.log) + PushEvents(cfg, h.files)
    ensures h.remote == PushedRemote(cfg, h.files, old(h.remote), status)
  {
    if !IsRemoteStateEnabled(cfg) {
      return None;
    }
    if cfg.trackerFile !in h.files {
      return Some(NoLocalState);
    }
    var spec := PushSpec(cfg);
    h.log := h.log + [Spawn(spec)];
    var outcome := status(spec);
    if !outcome.Succeeded() {
      return Some("failed to push state: " + outcome.output);
    }
    h.remote := h.remote[S3Uri(cfg) := h.files[cfg.trackerFile]];
    return None;
  }

  /** Pushing the local state and pulling it back leaves the local files as
      they were. */
  lemma PushThenPullRestores(cfg: Settings, files: map<Path, Bytes>, remote: map<string, Bytes>, status: Oracle)
    requires IsRemoteStateEnabled(cfg) && cfg.trackerFile in files
    requires status(PushSpec(cfg)).Succeeded() && status(PullSpec(cfg)).Succeeded()
    ensures PulledFiles(cfg, files, PushedRemote(cfg, files, remote, status), status) == files
  {
    var remote' := PushedRemote(cfg, files, remote, status);
    assert remote'[S3Uri(cfg)] == files[cfg.trackerFile];
  }

  /** With no remote object and the copy's "not found" exit status 1, a pull
      succeeds and changes no local file. */
  lemma FirstRunPull(cfg: Settings, files: map<Path, Bytes>, remote: map<string, Bytes>, status: Oracle)
    requires S3Uri(cfg) !in remote
    requires status(PullSpec(cfg)).Exited? && status(PullSpec(cfg)).code == 1
    ensures PullError(cfg, status).None?
    ensures PulledFiles(cfg, files, remote, status) == files
  {
  }

  // ---------------------------------------------------------------------
  // Load

  /** The sidecar lock file: the state file's path with ".lock" appended. */
  function LockPath(trackerFile: Path): (lock: Path)
    ensures Dir(lock) == Dir(trackerFile) && Base(lock) == Base(trackerFile) + ".lock"
  {
    Join(Dir(trackerFile), Base(trackerFile) + ".lock")
  }

  /** The lock file never is the state file itself. */
  lemma LockPathIsNotTrackerFile(trackerFile: Path)
    ensures LockPath(trackerFile) != trackerFile
  {
    var lock := LockPath(trackerFile);
    assert |Base(lock)| == |Base(trackerFile)| + 5;
    assert Base(lock) != Base(trackerFile);
  }

  /** The files after opening the lock with O_CREATE and no O_TRUNC: an
      empty lock file appears when the open succeeds and there was none, and
      an existing one keeps its content. */
  function WithLockFile(files: map<Path, Bytes>, lock: Path, lockOpens: bool): (after: map<Path, Bytes>)
    ensures forall p :: p != lock ==> (p in after <==> p in files)
    ensures forall p :: p != lock && p in files ==> after[p] == files[p]
    ensures lock in after <==> lock in files || lockOpens
    ensures lock in files ==> after[lock] == files[lock]
    ensures lock !in files && lockOpens ==> after[lock] == []
  {
    if lockOpens && lock !in files then files[lock := []] else files
  }

  /** What Load returns from the files it finds: the decoded state file, or
      the empty tracker when the file is missing, cannot be opened or read,
      or does not decode. */
  function ReadTracker(files: map<Path, Bytes>, trackerFile: Path, dataOpens: bool, readOk: bool, decode: Decoder): (t: ResourceTracker)
    ensures trackerFile !in files || !dataOpens || !readOk ==> t == Empty
    ensures trackerFile in files && dataOpens && readOk ==>
              t == (match decode(files[trackerFile]) case Some(d) => d case None => Empty)
  {
    if trackerFile !in files || !dataOpens || !readOk then Empty
    else decode(files[trackerFile]).GetOr(Empty)
  }

  /** Load: a best-effort pull (its error ignored), a shared lock on the
      sidecar file when it can be opened, then the read.  The oracles say
      whether the lock file and the data file open and whether the read
      succeeds. */
  method Load(h: Host, cfg: Settings, status: Oracle, lockOpens: bool, dataOpens: bool, readOk: bool, decode: Decoder)
    returns (t: ResourceTracker)
    modifies h`files, h`log, h`locks
    ensures h.log == old(h.log) + PullEvents(cfg)
    ensures h.files == WithLockFile(PulledFiles(cfg, old(h.files), h.remote, status), LockPath(cfg.trackerFile), lockOpens)
    ensures t == ReadTracker(h.files, cfg.trackerFile, dataOpens, readOk, decode)
    ensures h.locks == old(h.locks) +
              (if lockOpens then [SharedLock(LockPath(cfg.trackerFile)), Unlock(LockPath(cfg.trackerFile))] else [])
  {
    t := Empty;
    if IsRemoteStateEnabled(cfg) {
      var _ := PullState(h, cfg, status);
    }

    var lockPath := LockPath(cfg.trackerFile);
    if lockOpens {
      if lockPath !in h.files {
        h.files := h.files[lockPath := []];
      }
      h.locks := h.locks + [SharedLock(lockPath)];
    }

    LockPathIsNotTrackerFile(cfg.trackerFile);
    if cfg.trackerFile !in h.files || !dataOpens || !readOk {
      t := Empty;
    } else {
      var decoded := decode(h.files[cfg.trackerFile]);
      if decoded.Some? {
        t := decoded.value;
      }
    }

    // the deferred unlock runs on every return path
    if lockOpens {
      h.locks := h.locks + [Unlock(lockPath)];
    }
  }

  /** Load creates no state file: whether there is one afterwards depends only
      on what the pull did, never on the lock file's creation. */
  lemma LoadCreatesNoStateFile(cfg: Settings, files: map<Path, Bytes>, lockOpens: bool)
    ensures cfg.trackerFile in WithLockFile(files, LockPath(cfg.trackerFile), lockOpens)
            <==> cfg.trackerFile in files
  {
    LockPathIsNotTrackerFile(cfg.trackerFile);
  }

  /** Whether the lock file could be opened does not change what is read. */
  lemma LoadReadsWithoutLock(cfg: Settings, files: map<Path, Bytes>, dataOpens: bool, readOk: bool, decode: Decoder)
    ensures ReadTracker(WithLockFile(files, LockPath(cfg.trackerFile), false), cfg.trackerFile, dataOpens, readOk, decode)
            == ReadTracker(WithLockFile(files, LockPath(cfg.trackerFile), true), cfg.trackerFile, dataOpens, readOk, decode)
  {
    LockPathIsNotTrackerFile(cfg.trackerFile);
  }

  /** A state file that decodes to d is loaded as d, list by list, in order. */
  lemma LoadReturnsDecoded(files: map<Path, Bytes>, trackerFile: Path, decode: Decoder, d: ResourceTracker)
    requires trackerFile in files && decode(files[trackerFile]) == Some(d)
    ensures ReadTracker(files, trackerFile, true, true, decode) == d
  {
  }
}
