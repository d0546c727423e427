/** The vocabulary every component shares: paths, the description of a child
    process, the outcome an external command reports, the events an
    invocation of the CLI leaves behind, and the host it acts on. */
module Sys {

  datatype Option<+T> = None | Some(value: T) {
    function GetOr(default: T): T {
      match this
      case Some(v) => v
      case None => default
    }
  }

  type Bytes = seq<bv8>

  /** A file-system path, as the sequence of its components. */
  type Path = seq<string>

  /** filepath.Join of a directory and one name. */
  function Join(dir: Path, name: string): (p: Path)
    ensures Dir(p) == dir && Base(p) == name
    ensures |p| == |dir| + 1
  {
    dir + [name]
  }

  /** filepath.Dir: everything but the last component. */
  function Dir(p: Path): (d: Path)
    ensures p != [] ==> |d| == |p| - 1 && d == p[..|p| - 1]
  {
    if p == [] then [] else p[..|p| - 1]
  }

  /** filepath.Base: the last component ("." for an empty path). */
  function Base(p: Path): string {
    if p == [] then "." else p[|p| - 1]
  }

  /** One element of a child's argument vector: literal text or a path. */
  datatype Arg = Text(text: string) | PathArg(path: Path)

  function Texts(ss: seq<string>): (r: seq<Arg>)
    ensures |r| == |ss|
    ensures forall i :: 0 <= i < |ss| ==> r[i] == Text(ss[i])
  {
    if ss == [] then [] else [Text(ss[0])] + Texts(ss[1..])
  }

  /** What exec.Command is given: the program, its arguments and the working
      directory (None: the child inherits the parent's). */
  datatype ProcessSpec = ProcessSpec(program: string, args: seq<Arg>, dir: Option<Path>)

  /** What a finished exec.Cmd reports: an exit status with the combined
      output, or a failure to start the program at all.  A child killed by a
      signal reports Exited(-1, ...), as exec.ExitError.ExitCode does. */
  datatype Outcome = Exited(code: int, output: string) | StartFailed(output: string) {
    /** Run and CombinedOutput return a nil error exactly in this case. */
    predicate Succeeded() {
      Exited? && code == 0
    }
  }

  /** The outside world's answer for each child process. */
  type Oracle = ProcessSpec -> Outcome

  /** The observable actions of one invocation. */
  datatype Event =
    | Spawn(spec: ProcessSpec)      // a child process is started
    | ScriptNotFound(path: Path)    // the runner's missing-script report
    | Sleep(seconds: nat)           // time.Sleep
    | ShowStatus                    // the status table is printed

  /** Advisory-lock actions on the tracker's sidecar lock file. */
  datatype LockEvent = SharedLock(path: Path) | Unlock(path: Path)

  /** The machine the CLI runs on: its local files, the remote object store
      (objects by s3:// URI), and what the invocation has done so far. */
  class Host {
    var files: map<Path, Bytes>
    var remote: map<string, Bytes>
    var log: seq<Event>
    ghost var locks: seq<LockEvent>

    constructor (files: map<Path, Bytes>, remote: map<string, Bytes>)
      ensures this.files == files && this.remote == remote
      ensures log == [] && locks == []
    {
      this.files := files;
      this.remote := remote;
      log := [];
      locks := [];
    }
  }
}
