/** The automated creation sequence (cmd/aws-automator/commands/auto.go),
    and the step sequencer that plan.go repeats in its dry-run form. */
module Auto {
  import opened Sys
  import opened Config
  import opened Runner
  import opened Aws

  datatype Step = Step(name: string, script: string)

  const SecurityGroupScript := "create_security_group.sh"
  const Ec2Script := "create_ec2.sh"
  const S3BucketScript := "create_s3_bucket.sh"

  /** The fixed order: security group, then instance, then bucket. */
  const CreationSteps: seq<Step> := [
    Step("Firewall Rules (Security Group)", SecurityGroupScript),
    Step("SSH Key & EC2 Instance", Ec2Script),
    Step("S3 Bucket", S3BucketScript)
  ]

  /** The settle delay after each successful step, in seconds. */
  const SettleSeconds := 2

  function SettleEvents(settle: bool): seq<Event> {
    if settle then [Sleep(SettleSeconds)] else []
  }

  /** The sequencing rule over the runs the steps would have on their own:
      each run in order; the first failure ends the sequence, with nothing
      undone; after each success a settle delay when `settle` is set. */
  function Chain(runs: seq<Run>, settle: bool): Run {
    if runs == [] then Run([], true)
    else if !runs[0].ok then Run(runs[0].events, false)
    else
      var rest := Chain(runs[1..], settle);
      Run(runs[0].events + SettleEvents(settle) + rest.events, rest.ok)
  }

  /** What each step's script does on its own, with the same extra arguments. */
  function StepRuns(cfg: Settings, files: map<Path, Bytes>, status: Oracle, steps: seq<Step>, extra: seq<string>)
    : (runs: seq<Run>)
    ensures |runs| == |steps|
    ensures forall k :: 0 <= k < |steps| ==> runs[k] == Execute(cfg, files, status, steps[k].script, extra)
  {
    seq(|steps|, k requires 0 <= k < |steps| => Execute(cfg, files, status, steps[k].script, extra))
  }

  /** The steps run in order as the chain of their runs. */
  function RunSequence(cfg: Settings, files: map<Path, Bytes>, status: Oracle,
                       steps: seq<Step>, extra: seq<string>, settle: bool): Run
  {
    Chain(StepRuns(cfg, files, status, steps, extra), settle)
  }

  /** The sequence one step at a time: the first step, then (if it
      succeeds) a settle delay and the sequence of the rest. */
  lemma SequenceCons(cfg: Settings, files: map<Path, Bytes>, status: Oracle,
                     steps: seq<Step>, extra: seq<string>, settle: bool)
    requires steps != []
    ensures var first := Execute(cfg, files, status, steps[0].script, extra);
            var rest := RunSequence(cfg, files, status, steps[1..], extra, settle);
            RunSequence(cfg, files, status, steps, extra, settle)
            == if !first.ok then Run(first.events, false)
               else Run(first.events + SettleEvents(settle) + rest.events, rest.ok)
  {
    var runs := StepRuns(cfg, files, status, steps, extra);
    assert runs[1..] == StepRuns(cfg, files, status, steps[1..], extra);
  }

  lemma SettleShape(settle: bool)
    ensures Attempted(SettleEvents(settle)) == []
    ensures Sleeps(SettleEvents(settle)) == if settle then 1 else 0
    ensures ShowStatus !in SettleEvents(settle)
    ensures forall extra :: ScriptsGiven(SettleEvents(settle), extra)
  {
    if settle {
      assert SettleEvents(settle)[1..] == [];
    }
  }

  predicate StepOk(cfg: Settings, files: map<Path, Bytes>, status: Oracle, step: Step, extra: seq<string>) {
    Execute(cfg, files, status, step.script, extra).ok
  }

  /** The number of leading steps whose scripts succeed. */
  function Passed(cfg: Settings, files: map<Path, Bytes>, status: Oracle, steps: seq<Step>, extra: seq<string>): (n: nat)
    ensures n <= |steps|
    ensures forall i :: 0 <= i < n ==> StepOk(cfg, files, status, steps[i], extra)
    ensures n < |steps| ==> !StepOk(cfg, files, status, steps[n], extra)
    decreases |steps|
  {
    if steps == [] then 0
    else if !StepOk(cfg, files, status, steps[0], extra) then 0
    else 1 + Passed(cfg, files, status, steps[1..], extra)
  }

  /** The number of steps attempted: those that pass and the first that fails. */
  function Attempts(cfg: Settings, files: map<Path, Bytes>, status: Oracle, steps: seq<Step>, extra: seq<string>): (n: nat)
    ensures n <= |steps|
  {
    var passed := Passed(cfg, files, status, steps, extra);
    if passed < |steps| then passed + 1 else passed
  }

  function ScriptPaths(cfg: Settings, steps: seq<Step>): (paths: seq<Path>)
    ensures |paths| == |steps|
    ensures forall i :: 0 <= i < |steps| ==> paths[i] == ScriptPath(cfg, steps[i].script)
  {
    if steps == [] then [] else [ScriptPath(cfg, steps[0].script)] + ScriptPaths(cfg, steps[1..])
  }

  // ---------------------------------------------------------------------
  // The --resource flag of create and plan

  /** The flag's default when it is not given. */
  const DefaultResource := "all"

  /** The script a single-resource value selects: sg, ec2 or s3. */
  function ResourceScript(resource: string): (script: Option<string>)
    ensures script.Some? <==> resource == "sg" || resource == "ec2" || resource == "s3"
    ensures resource == "sg" ==> script == Some(CreationSteps[0].script)
    ensures resource == "ec2" ==> script == Some(CreationSteps[1].script)
    ensures resource == "s3" ==> script == Some(CreationSteps[2].script)
  {
    match resource
    case "sg" => Some(SecurityGroupScript)
    case "ec2" => Some(Ec2Script)
    case "s3" => Some(S3BucketScript)
    case _ => None
  }

  /** What create and plan report themselves, besides what the scripts print. */
  datatype Report = NoCredentials | UnknownResource(resource: string) | Dispatched

  /** The report of a command that probes credentials and then dispatches on
      the resource value. */
  function DispatchReport(status: Oracle, resource: string): (report: Report)
    ensures report == NoCredentials <==> !CredentialsOk(status)
    ensures report.UnknownResource? <==>
              CredentialsOk(status) && ResourceScript(resource).None? && resource != DefaultResource
    ensures report.UnknownResource? ==> report.resource == resource
  {
    if !CredentialsOk(status) then NoCredentials
    else if ResourceScript(resource).Some? || resource == DefaultResource then Dispatched
    else UnknownResource(resource)
  }

  // ---------------------------------------------------------------------
  // Reading the event log

  /** The script a log entry shows being attempted, if any. */
  function AttemptOf(e: Event): seq<Path> {
    match e
    case Spawn(spec) =>
      if spec.program == "bash" && |spec.args| > 0 && spec.args[0].PathArg? then [spec.args[0].path] else []
    case ScriptNotFound(p) => [p]
    case _ => []
  }

  /** The scripts attempted, in log order. */
  function Attempted(events: seq<Event>): seq<Path> {
    if events == [] then [] else AttemptOf(events[0]) + Attempted(events[1..])
  }

  /** The number of settle delays in the log. */
  function Sleeps(events: seq<Event>): nat {
    if events == [] then 0 else (if events[0].Sleep? then 1 else 0) + Sleeps(events[1..])
  }

  /** Every script started is given exactly `extra` after its path. */
  predicate ScriptsGiven(events: seq<Event>, extra: seq<string>) {
    forall k :: 0 <= k < |events| && events[k].Spawn? && events[k].spec.program == "bash" ==>
      |events[k].spec.args| > 0 && events[k].spec.args[1..] == Texts(extra)
  }

  lemma {:induction false} AttemptedAppend(a: seq<Event>, b: seq<Event>)
    ensures Attempted(a + b) == Attempted(a) + Attempted(b)
  {
    if a == [] {
      assert a + b == b;
    } else {
      assert (a + b)[1..] == a[1..] + b;
      AttemptedAppend(a[1..], b);
    }
  }

  lemma {:induction false} SleepsAppend(a: seq<Event>, b: seq<Event>)
    ensures Sleeps(a + b) == Sleeps(a) + Sleeps(b)
  {
    if a == [] {
      assert a + b == b;
    } else {
      assert (a + b)[1..] == a[1..] + b;
      SleepsAppend(a[1..], b);
    }
  }

  lemma ScriptsGivenAppend(a: seq<Event>, b: seq<Event>, extra: seq<string>)
    requires ScriptsGiven(a, extra) && ScriptsGiven(b, extra)
    ensures ScriptsGiven(a + b, extra)
  {
    forall k | 0 <= k < |a + b| && (a + b)[k].Spawn? && (a + b)[k].spec.program == "bash"
      ensures |(a + b)[k].spec.args| > 0 && (a + b)[k].spec.args[1..] == Texts(extra)
    {
      if k >= |a| {
        assert (a + b)[k] == b[k - |a|];
      }
    }
  }

  lemma ExecuteGivesExtra(cfg: Settings, files: map<Path, Bytes>, status: Oracle, name: string, extra: seq<string>)
    ensures ScriptsGiven(Execute(cfg, files, status, name, extra).events, extra)
  {
    var spec := ScriptSpec(cfg, name, extra);
    assert spec.args[1..] == Texts(extra);
  }

  lemma ExecuteAttempts(cfg: Settings, files: map<Path, Bytes>, status: Oracle, name: string, extra: seq<string>)
    ensures Attempted(Execute(cfg, files, status, name, extra).events) == [ScriptPath(cfg, name)]
    ensures Sleeps(Execute(cfg, files, status, name, extra).events) == 0
    ensures ShowStatus !in Execute(cfg, files, status, name, extra).events
  {
    var events := Execute(cfg, files, status, name, extra).events;
    assert |events| == 1 && events[1..] == [];
  }

  // ---------------------------------------------------------------------
  // What the sequence does

  /** The sequence succeeds exactly when every step does. */
  lemma {:induction false} SequenceOkIffAllPass(cfg: Settings, files: map<Path, Bytes>, status: Oracle,
                                                steps: seq<Step>, extra: seq<string>, settle: bool)
    ensures RunSequence(cfg, files, status, steps, extra, settle).ok <==> Passed(cfg, files, status, steps, extra) == |steps|
    decreases |steps|
  {
    if steps != [] {
      SequenceCons(cfg, files, status, steps, extra, settle);
      if StepOk(cfg, files, status, steps[0], extra) {
        SequenceOkIffAllPass(cfg, files, status, steps[1..], extra, settle);
      }
    }
  }

  lemma ScriptPathsCons(cfg: Settings, steps: seq<Step>)
    requires steps != []
    ensures ScriptPaths(cfg, steps) == [ScriptPath(cfg, steps[0].script)] + ScriptPaths(cfg, steps[1..])
  {
  }

  lemma AttemptsCons(cfg: Settings, files: map<Path, Bytes>, status: Oracle, steps: seq<Step>, extra: seq<string>)
    requires steps != []
    ensures Attempts(cfg, files, status, steps, extra)
            == if StepOk(cfg, files, status, steps[0], extra) then 1 + Attempts(cfg, files, status, steps[1..], extra) else 1
  {
  }

  /** Attempts logged by a success, a settle delay and the rest. */
  lemma AttemptedAfterSuccess(first: seq<Event>, settle: seq<Event>, rest: seq<Event>, paths: seq<Path>, m: nat)
    requires m < |paths|
    requires Attempted(first) == [paths[0]] && Attempted(settle) == [] && Attempted(rest) == paths[1..][..m]
    ensures Attempted(first + settle + rest) == paths[..m + 1]
  {
    AttemptedAppend(first, settle);
    AttemptedAppend(first + settle, rest);
    assert paths[..m + 1] == [paths[0]] + paths[1..][..m];
  }

  /** The scripts attempted are the steps' scripts in order, up to and
      including the first that fails, and no later one. */
  lemma {:induction false} SequenceAttemptsPrefix(cfg: Settings, files: map<Path, Bytes>, status: Oracle,
                                                  steps: seq<Step>, extra: seq<string>, settle: bool)
    ensures Attempted(RunSequence(cfg, files, status, steps, extra, settle).events)
            == ScriptPaths(cfg, steps)[..Attempts(cfg, files, status, steps, extra)]
    decreases |steps|
  {
    if steps == [] {
      return;
    }
    SequenceCons(cfg, files, status, steps, extra, settle);
    AttemptsCons(cfg, files, status, steps, extra);
    ScriptPathsCons(cfg, steps);
    ExecuteAttempts(cfg, files, status, steps[0].script, extra);
    if StepOk(cfg, files, status, steps[0], extra) {
      SequenceAttemptsPrefix(cfg, files, status, steps[1..], extra, settle);
      SettleShape(settle);
      AttemptedAfterSuccess(Execute(cfg, files, status, steps[0].script, extra).events, SettleEvents(settle),
                            RunSequence(cfg, files, status, steps[1..], extra, settle).events,
                            ScriptPaths(cfg, steps), Attempts(cfg, files, status, steps[1..], extra));
    }
  }

  /** One settle delay per successful step, including the last. */
  lemma {:induction false} SequenceSleeps(cfg: Settings, files: map<Path, Bytes>, status: Oracle,
                                          steps: seq<Step>, extra: seq<string>, settle: bool)
    ensures Sleeps(RunSequence(cfg, files, status, steps, extra, settle).events)
            == if settle then Passed(cfg, files, status, steps, extra) else 0
    decreases |steps|
  {
    if steps == [] {
      return;
    }
    SequenceCons(cfg, files, status, steps, extra, settle);
    var first := Execute(cfg, files, status, steps[0].script, extra);
    ExecuteAttempts(cfg, files, status, steps[0].script, extra);
    if first.ok {
      var rest := RunSequence(cfg, files, status, steps[1..], extra, settle);
      SequenceSleeps(cfg, files, status, steps[1..], extra, settle);
      SleepsAppend(first.events, SettleEvents(settle));
      SleepsAppend(first.events + SettleEvents(settle), rest.events);
      SettleShape(settle);
    }
  }

  /** The sequence itself never shows the status table, and gives every
      script it starts exactly the extra arguments. */
  lemma {:induction false} SequenceShape(cfg: Settings, files: map<Path, Bytes>, status: Oracle,
                                         steps: seq<Step>, extra: seq<string>, settle: bool)
    ensures ShowStatus !in RunSequence(cfg, files, status, steps, extra, settle).events
    ensures ScriptsGiven(RunSequence(cfg, files, status, steps, extra, settle).events, extra)
    decreases |steps|
  {
    if steps == [] {
      return;
    }
    SequenceCons(cfg, files, status, steps, extra, settle);
    var first := Execute(cfg, files, status, steps[0].script, extra);
    ExecuteAttempts(cfg, files, status, steps[0].script, extra);
    ExecuteGivesExtra(cfg, files, status, steps[0].script, extra);
    if first.ok {
      var rest := RunSequence(cfg, files, status, steps[1..], extra, settle);
      SequenceShape(cfg, files, status, steps[1..], extra, settle);
      SettleShape(settle);
      ScriptsGivenAppend(first.events, SettleEvents(settle), extra);
      ScriptsGivenAppend(first.events + SettleEvents(settle), rest.events, extra);
    }
  }

  /** Running one more step after a successful chain. */
  lemma {:induction false} ChainSnoc(runs: seq<Run>, last: Run, settle: bool)
    requires Chain(runs, settle).ok
    ensures Chain(runs + [last], settle)
            == if last.ok then Run(Chain(runs, settle).events + last.events + SettleEvents(settle), true)
               else Run(Chain(runs, settle).events + last.events, false)
    decreases |runs|
  {
    if runs != [] {
      assert (runs + [last])[1..] == runs[1..] + [last];
      ChainSnoc(runs[1..], last, settle);
    }
  }

  /** Nothing after a failed run happens. */
  lemma {:induction false} ChainStopsAtFailure(runs: seq<Run>, later: seq<Run>, settle: bool)
    requires !Chain(runs, settle).ok
    ensures Chain(runs + later, settle) == Chain(runs, settle)
    decreases |runs|
  {
    assert runs != [];
    assert (runs + later)[0] == runs[0];
    if runs[0].ok {
      assert (runs + later)[1..] == runs[1..] + later;
      ChainStopsAtFailure(runs[1..], later, settle);
    }
  }

  /** The first i steps of the sequence. */
  function Prefix(cfg: Settings, files: map<Path, Bytes>, status: Oracle, steps: seq<Step>, extra: seq<string>,
                  settle: bool, i: nat): Run
    requires i <= |steps|
  {
    Chain(StepRuns(cfg, files, status, steps, extra)[..i], settle)
  }

  /** A successful step i extends the prefix by its run and a settle delay. */
  lemma PrefixGrows(cfg: Settings, files: map<Path, Bytes>, status: Oracle, steps: seq<Step>, extra: seq<string>,
                    settle: bool, i: nat)
    requires i < |steps| && Prefix(cfg, files, status, steps, extra, settle, i).ok
    requires StepRuns(cfg, files, status, steps, extra)[i].ok
    ensures Prefix(cfg, files, status, steps, extra, settle, i + 1)
            == Run(Prefix(cfg, files, status, steps, extra, settle, i).events
                   + StepRuns(cfg, files, status, steps, extra)[i].events + SettleEvents(settle), true)
  {
    var runs := StepRuns(cfg, files, status, steps, extra);
    ChainSnoc(runs[..i], runs[i], settle);
    assert runs[..i] + [runs[i]] == runs[..i + 1];
  }

  /** A failed step i ends the whole sequence. */
  lemma PrefixEnds(cfg: Settings, files: map<Path, Bytes>, status: Oracle, steps: seq<Step>, extra: seq<string>,
                   settle: bool, i: nat)
    requires i < |steps| && Prefix(cfg, files, status, steps, extra, settle, i).ok
    requires !StepRuns(cfg, files, status, steps, extra)[i].ok
    ensures RunSequence(cfg, files, status, steps, extra, settle)
            == Run(Prefix(cfg, files, status, steps, extra, settle, i).events
                   + StepRuns(cfg, files, status, steps, extra)[i].events, false)
  {
    var runs := StepRuns(cfg, files, status, steps, extra);
    ChainSnoc(runs[..i], runs[i], settle);
    assert runs[..i] + [runs[i]] == runs[..i + 1];
    ChainStopsAtFailure(runs[..i + 1], runs[i + 1..], settle);
    assert runs[..i + 1] + runs[i + 1..] == runs;
  }

  /** The whole sequence is its longest prefix. */
  lemma PrefixAll(cfg: Settings, files: map<Path, Bytes>, status: Oracle, steps: seq<Step>, extra: seq<string>, settle: bool)
    ensures Prefix(cfg, files, status, steps, extra, settle, |steps|) == RunSequence(cfg, files, status, steps, extra, settle)
  {
    var runs := StepRuns(cfg, files, status, steps, extra);
    assert runs[..|steps|] == runs;
  }

  // ---------------------------------------------------------------------
  // runAuto

  /** runAuto's log: the credential probe, then (if it passes) the creation
      sequence with settle delays, then the status table if every step
      succeeded. */
  function AutoEvents(cfg: Settings, files: map<Path, Bytes>, status: Oracle): seq<Event> {
    [Spawn(ProbeSpec)] +
    if !CredentialsOk(status) then []
    else
      var r := RunSequence(cfg, files, status, CreationSteps, [], true);
      r.events + (if r.ok then [ShowStatus] else [])
  }

  /** Step i of a sequence whose first i steps succeeded: its script, with
      the sequence's extra arguments, and on success the settle delay. */
  method RunStep(h: Host, cfg: Settings, status: Oracle, steps: seq<Step>, extra: seq<string>, settle: bool,
                 i: nat, ghost start: seq<Event>) returns (ok: bool)
    requires i < |steps| && Prefix(cfg, h.files, status, steps, extra, settle, i).ok
    requires h.log == start + Prefix(cfg, h.files, status, steps, extra, settle, i).events
    modifies h`log
    ensures ok ==> Prefix(cfg, h.files, status, steps, extra, settle, i + 1).ok
    ensures ok ==> h.log == start + Prefix(cfg, h.files, status, steps, extra, settle, i + 1).events
    ensures !ok ==> !RunSequence(cfg, h.files, status, steps, extra, settle).ok
    ensures !ok ==> h.log == start + RunSequence(cfg, h.files, status, steps, extra, settle).events
  {
    ok := ExecuteScript(h, cfg, status, steps[i].script, extra);
    if !ok {
      PrefixEnds(cfg, h.files, status, steps, extra, settle, i);
      return;
    }
    PrefixGrows(cfg, h.files, status, steps, extra, settle, i);
    h.log := h.log + SettleEvents(settle);
  }

  /** The loop shared by runAuto (settle delays, no extra arguments) and
      runAutoPlan (no delays, "--dry-run"): run each step, return at the
      first failure. */
  method RunSteps(h: Host, cfg: Settings, status: Oracle, steps: seq<Step>, extra: seq<string>, settle: bool)
    returns (ok: bool)
    modifies h`log
    ensures h.log == old(h.log) + RunSequence(cfg, h.files, status, steps, extra, settle).events
    ensures ok == RunSequence(cfg, h.files, status, steps, extra, settle).ok
  {
    var i := 0;
    while i < |steps|
      invariant 0 <= i <= |steps|
      invariant Prefix(cfg, h.files, status, steps, extra, settle, i).ok
      invariant h.log == old(h.log) + Prefix(cfg, h.files, status, steps, extra, settle, i).events
    {
      var succeeded := RunStep(h, cfg, status, steps, extra, settle, i, old(h.log));
      if !succeeded {
        return false;
      }
      i := i + 1;
    }
    PrefixAll(cfg, h.files, status, steps, extra, settle);
    return true;
  }

  method RunAuto(h: Host, cfg: Settings, status: Oracle)
    modifies h`log
    ensures h.log == old(h.log) + AutoEvents(cfg, h.files, status)
  {
    var credentialsOk := CheckCredentials(h, status);
    if !credentialsOk {
      return;
    }
    var allCreated := RunSteps(h, cfg, status, CreationSteps, [], true);
    if allCreated {
      h.log := h.log + [ShowStatus];
    }
  }

  // ---------------------------------------------------------------------
  // Properties of runAuto

  /** Without credentials nothing but the probe runs. */
  lemma AutoWithoutCredentials(cfg: Settings, files: map<Path, Bytes>, status: Oracle)
    requires !CredentialsOk(status)
    ensures AutoEvents(cfg, files, status) == [Spawn(ProbeSpec)]
  {
  }

  /** The scripts attempted: a prefix of security group, instance, bucket,
      ending at the first failure. */
  lemma AutoAttemptsInOrder(cfg: Settings, files: map<Path, Bytes>, status: Oracle)
    requires CredentialsOk(status)
    ensures Attempted(AutoEvents(cfg, files, status))
            == ScriptPaths(cfg, CreationSteps)[..Attempts(cfg, files, status, CreationSteps, [])]
  {
    var r := RunSequence(cfg, files, status, CreationSteps, [], true);
    var tail := if r.ok then [ShowStatus] else [];
    SequenceAttemptsPrefix(cfg, files, status, CreationSteps, [], true);
    AttemptedAppend([Spawn(ProbeSpec)], r.events + tail);
    AttemptedAppend(r.events, tail);
    assert Attempted(tail) == [] by {
      if r.ok { assert tail[1..] == []; }
    }
  }

  /** The creation order is security group, instance, bucket. */
  lemma CreationOrder(cfg: Settings)
    ensures ScriptPaths(cfg, CreationSteps)
            == [ScriptPath(cfg, SecurityGroupScript), ScriptPath(cfg, Ec2Script), ScriptPath(cfg, S3BucketScript)]
  {
  }

  /** A settle delay follows every successful step: as many sleeps as successes. */
  lemma AutoSleepsPerSuccess(cfg: Settings, files: map<Path, Bytes>, status: Oracle)
    ensures Sleeps(AutoEvents(cfg, files, status))
            == if CredentialsOk(status) then Passed(cfg, files, status, CreationSteps, []) else 0
  {
    var r := RunSequence(cfg, files, status, CreationSteps, [], true);
    var tail := if r.ok then [ShowStatus] else [];
    SequenceSleeps(cfg, files, status, CreationSteps, [], true);
    if CredentialsOk(status) {
      SleepsAppend([Spawn(ProbeSpec)], r.events + tail);
      SleepsAppend(r.events, tail);
    }
  }

  /** The status table is shown exactly when all three steps succeed. */
  lemma AutoStatusIffAllSucceed(cfg: Settings, files: map<Path, Bytes>, status: Oracle)
    ensures ShowStatus in AutoEvents(cfg, files, status)
            <==> CredentialsOk(status) && Passed(cfg, files, status, CreationSteps, []) == 3
  {
    SequenceOkIffAllPass(cfg, files, status, CreationSteps, [], true);
    SequenceShape(cfg, files, status, CreationSteps, [], true);
  }
}
