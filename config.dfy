/** Settings derived at start-up from the executable's location, the working
    directory and the environment (internal/config/config.go). */
module Config {
  import opened Sys

  /** The process environment; an unset variable reads as "". */
  type Env = map<string, string>

  const BucketVar := "S3_STATE_BUCKET"
  const KeyVar := "S3_STATE_KEY"
  const RegionVar := "S3_STATE_REGION"
  const AwsRegionVar := "AWS_REGION"

  const DefaultKey := "state/created_resources.json"
  const DefaultRegion := "us-east-1"
  const ScriptsDirName := "scripts"
  const TrackerFileName := "created_resources.json"

  /** os.Getenv */
  function Getenv(env: Env, name: string): (v: string)
    ensures v != "" ==> name in env && env[name] == v
    ensures v == "" <==> name !in env || env[name] == ""
  {
    if name in env then env[name] else ""
  }

  /** The first non-empty candidate, or "" when there is none: the reference
      meaning of a chain of "if empty, try the next one" fallbacks. */
  function FirstNonEmpty(candidates: seq<string>): (r: string)
    ensures r == "" <==> forall i :: 0 <= i < |candidates| ==> candidates[i] == ""
    ensures r != "" ==> exists i :: 0 <= i < |candidates| && candidates[i] == r &&
                                    forall j :: 0 <= j < i ==> candidates[j] == ""
  {
    if candidates == [] then ""
    else if candidates[0] != "" then candidates[0]
    else FirstNonEmpty(candidates[1..])
  }

  /** Two candidates: the first unless it is empty. */
  lemma FirstNonEmptyOfTwo(a: string, b: string)
    ensures FirstNonEmpty([a, b]) == if a != "" then a else b
  {
    assert [a, b][1..] == [b];
    assert [b][1..] == [];
  }

  /** Three candidates: the first non-empty of them, or the third. */
  lemma FirstNonEmptyOfThree(a: string, b: string, c: string)
    ensures FirstNonEmpty([a, b, c]) == if a != "" then a else if b != "" then b else c
  {
    assert [a, b, c][1..] == [b, c];
    FirstNonEmptyOfTwo(b, c);
  }

  /** The six package-level settings, as one value. */
  datatype Settings = Settings(
    projectRoot: Path,
    scriptsDir: Path,
    trackerFile: Path,
    bucket: string,
    key: string,
    region: string)

  /** IsRemoteStateEnabled */
  predicate IsRemoteStateEnabled(s: Settings) {
    s.bucket != ""
  }

  /** The project root: the grandparent of the executable when it sits in a
      directory named "bin", otherwise the working directory. */
  function ProjectRootFor(exe: Path, cwd: Path): Path {
    if Base(Dir(exe)) == "bin" then Dir(Dir(exe)) else cwd
  }

  /** What Init computes.  None stands for the panic when the executable's
      path is unavailable; an unavailable working directory reads as "". */
  function Derive(exe: Option<Path>, cwd: Option<Path>, env: Env): (r: Option<Settings>)
    ensures r.None? <==> exe.None?
    ensures r.Some? ==> r.value.projectRoot == ProjectRootFor(exe.value, cwd.GetOr([]))
    ensures r.Some? ==> Dir(r.value.scriptsDir) == r.value.projectRoot && Base(r.value.scriptsDir) == ScriptsDirName
    ensures r.Some? ==> Dir(r.value.trackerFile) == r.value.projectRoot && Base(r.value.trackerFile) == TrackerFileName
    ensures r.Some? ==> r.value.bucket == Getenv(env, BucketVar)
    ensures r.Some? ==> r.value.key != "" && r.value.region != ""
  {
    match exe
    case None => None
    case Some(ex) =>
      var root := ProjectRootFor(ex, cwd.GetOr([]));
      FirstNonEmptyOfTwo(Getenv(env, KeyVar), DefaultKey);
      FirstNonEmptyOfThree(Getenv(env, RegionVar), Getenv(env, AwsRegionVar), DefaultRegion);
      Some(Settings(
        root,
        Join(root, ScriptsDirName),
        Join(root, TrackerFileName),
        Getenv(env, BucketVar),
        FirstNonEmpty([Getenv(env, KeyVar), DefaultKey]),
        FirstNonEmpty([Getenv(env, RegionVar), Getenv(env, AwsRegionVar), DefaultRegion])))
  }

  /** Remote state is on exactly when S3_STATE_BUCKET is set to a non-empty value. */
  lemma RemoteStateIffBucketSet(exe: Path, cwd: Option<Path>, env: Env)
    ensures IsRemoteStateEnabled(Derive(Some(exe), cwd, env).value)
            <==> BucketVar in env && env[BucketVar] != ""
  {
  }

  /** The key is S3_STATE_KEY when that is non-empty, the default otherwise. */
  lemma KeyDefaulting(exe: Path, cwd: Option<Path>, env: Env)
    ensures var s := Derive(Some(exe), cwd, env).value;
            if Getenv(env, KeyVar) != "" then s.key == env[KeyVar] else s.key == DefaultKey
  {
  }

  /** The region falls back from S3_STATE_REGION to AWS_REGION to us-east-1. */
  lemma RegionFallback(exe: Path, cwd: Option<Path>, env: Env)
    ensures var s := Derive(Some(exe), cwd, env).value;
            if Getenv(env, RegionVar) != "" then s.region == env[RegionVar]
            else if Getenv(env, AwsRegionVar) != "" then s.region == env[AwsRegionVar]
            else s.region == DefaultRegion
  {
    FirstNonEmptyOfThree(Getenv(env, RegionVar), Getenv(env, AwsRegionVar), DefaultRegion);
  }

  /** A working directory that cannot be read behaves as the empty path. */
  lemma GetwdErrorIgnored(exe: Path, env: Env)
    ensures Derive(Some(exe), None, env) == Derive(Some(exe), Some([]), env)
  {
  }

  /** The package-level variables of internal/config/config.go. */
  class Globals {
    var projectRoot: Path
    var scriptsDir: Path
    var trackerFile: Path
    var s3StateBucket: string
    var s3StateKey: string
    var s3StateRegion: string

    /** Go's zero values, before Init runs. */
    constructor ()
      ensures Current() == Settings([], [], [], "", "", "")
    {
      projectRoot, scriptsDir, trackerFile := [], [], [];
      s3StateBucket, s3StateKey, s3StateRegion := "", "", "";
    }

    function Current(): Settings
      reads this
    {
      Settings(projectRoot, scriptsDir, trackerFile, s3StateBucket, s3StateKey, s3StateRegion)
    }

    /** Init: assigns the variables one after another; the region is
        overwritten by each fallback in turn.  Returns true where the
        source panics (nothing is assigned then). */
    method Init(exe: Option<Path>, cwd: Option<Path>, env: Env) returns (panicked: bool)
      modifies this
      ensures panicked <==> exe.None?
      ensures panicked ==> Current() == old(Current())
      ensures !panicked ==> Current() == Derive(exe, cwd, env).value
    {
      if exe.None? {
        return true;
      }
      var ex := exe.value;
      var wd := if cwd.Some? then cwd.value else [];

      if Base(Dir(ex)) == "bin" {
        projectRoot := Dir(Dir(ex));
      } else {
        projectRoot := wd;
      }

      scriptsDir := Join(projectRoot, ScriptsDirName);
      trackerFile := Join(projectRoot, TrackerFileName);

      s3StateBucket := Getenv(env, BucketVar);
      s3StateKey := Getenv(env, KeyVar);
      if s3StateKey == "" {
        s3StateKey := DefaultKey;
      }
      s3StateRegion := Getenv(env, RegionVar);
      if s3StateRegion == "" {
        s3StateRegion := Getenv(env, AwsRegionVar);
      }
      if s3StateRegion == "" {
        s3StateRegion := DefaultRegion;
      }
      panicked := false;
      FirstNonEmptyOfTwo(Getenv(env, KeyVar), DefaultKey);
      FirstNonEmptyOfThree(Getenv(env, RegionVar), Getenv(env, AwsRegionVar), DefaultRegion);
    }
  }
}
