# aws-automator, modelled in Dafny

A model of the core of `aws-automator`. This Go command-line tool drives a
set of Bash provisioning scripts that create an AWS security group, an EC2
instance with its key pair, and an S3 bucket. It keeps a JSON record of what
was created, which it can mirror to S3. The model covers:

- configuration from the executable's location and the environment (`config.Init`);
- the resource tracker and its S3 pull and push, and `tracker.Load`;
- the script runner and the cleanup call;
- the `auto`, `create`, `plan` and `state` subcommands;
- the ID cell and count colour of the status table.

Everything a run does to the outside world goes into one log on a `Host`
object, as events: the child processes it starts (program, arguments,
working directory), the runner's "script not found" report, each settle
delay, and each showing of the status table. The host also holds the local
files and the remote objects. An external command's outcome comes from an
oracle: a function from the full process description to an exit status and
its output. Each stateful operation is a method whose postcondition ties
its new state to a pure function of the old one. The lemmas then state what
the source promises about those functions.

Files, one module each:

| file | module | models |
|---|---|---|
| sys.dfy | Sys | paths, process descriptions, outcomes, events, the `Host` |
| config.dfy | Config | `internal/config/config.go` |
| tracker.dfy | Tracker | `internal/tracker/tracker.go` |
| runner.dfy | Runner | `internal/runner/runner.go` |
| aws.dfy | Aws | `internal/aws/aws.go` (the credential probe only) |
| ui.dfy | Ui | `internal/ui/ui.go` |
| auto.dfy | Auto | `commands/auto.go`, the step sequencer, the `--resource` switch |
| plan.dfy | Plan | `commands/plan.go` |
| create.dfy | Create | `commands/create.go` |
| state.dfy | State | `commands/state.go` |

## Model

| member | source | states |
|---|---|---|
| Config.Getenv | internal/config/config.go:38-39 | an unset variable and one set to "" both read as ""; any non-empty result is the variable's value |
| Config.FirstNonEmpty | internal/config/config.go:39-49 | the fallback chain yields "" only when every candidate is empty, and otherwise the first non-empty candidate, with all earlier ones empty |
| Config.Derive | internal/config/config.go:17-50 | Init fails exactly when the executable path is unavailable. Otherwise: the root follows the "bin" rule; the scripts directory and tracker file sit directly under the root; the bucket is `S3_STATE_BUCKET` verbatim; the key and region are never empty |
| Config.RemoteStateIffBucketSet | internal/config/config.go:52-54 | remote state is enabled exactly when `S3_STATE_BUCKET` is present and non-empty |
| Config.KeyDefaulting | internal/config/config.go:39-42 | the key is `S3_STATE_KEY` when non-empty, else "state/created_resources.json" |
| Config.RegionFallback | internal/config/config.go:43-49 | the region is `S3_STATE_REGION`, else `AWS_REGION`, else "us-east-1" |
| Config.GetwdErrorIgnored | internal/config/config.go:24-32 | a working directory that cannot be read behaves as the empty path; it is not an error |
| Config.Globals.constructor | internal/config/config.go:8-15 | before Init the six variables hold Go's zero values |
| Config.Globals.Init | internal/config/config.go:17-50 | the sequential assignments, including the region overwritten twice, end in exactly the derived settings; a panic assigns nothing |
| Tracker.S3Uri | internal/tracker/tracker.go:27 | the URI is "s3://", the bucket, "/", the key, in that order, with nothing else |
| Tracker.PullEvents | internal/tracker/tracker.go:23-31 | a pull starts a command only when remote state is on: `aws s3 cp <uri> <tracker file> --region <region>`, a copy (not a move), in the inherited working directory |
| Tracker.PullError | internal/tracker/tracker.go:22-45 | no error when remote state is off, on success, or on exit status 1 (first run), whatever the output. Any other failure gives "failed to pull state: " plus the output |
| Tracker.PulledFiles | internal/tracker/tracker.go:30-44 | only the tracker file can change; when remote state is on, the copy succeeds and the object exists, the tracker file holds exactly the remote object's content (overwriting or creating it); otherwise all files are as they were |
| Tracker.PullState | internal/tracker/tracker.go:22-45 | the pull's error, log and files are those three functions of the old state |
| Tracker.PushEvents | internal/tracker/tracker.go:49-61 | a push starts a command only when remote state is on and the local file exists: `aws s3 cp <tracker file> <uri> --region <region>`, a copy (not a move), in the inherited working directory |
| Tracker.PushError | internal/tracker/tracker.go:48-70 | no error when remote state is off; "no local state file to push" when the file is missing; otherwise an error exactly when the upload fails, carrying its output |
| Tracker.PushedRemote | internal/tracker/tracker.go:57-69 | only the object at the state URI can change; after a successful push it holds the local file; with remote state off, or after any error, nothing changed |
| Tracker.PushState | internal/tracker/tracker.go:48-70 | the push's error, log and remote store are those three functions of the old state |
| Tracker.PushThenPullRestores | internal/tracker/tracker.go:22-70 | a successful push followed by a successful pull leaves the local files as they were |
| Tracker.FirstRunPull | internal/tracker/tracker.go:33-39 | with no remote object and exit status 1, the pull succeeds and changes nothing |
| Tracker.LockPath | internal/tracker/tracker.go:81 | the lock file sits beside the state file, and its name is the state file's name plus ".lock" |
| Tracker.LockPathIsNotTrackerFile | internal/tracker/tracker.go:81-90 | the lock file is never the state file |
| Tracker.WithLockFile | internal/tracker/tracker.go:82 | opening the lock with O_CREATE adds an empty lock file when the open succeeds and there was none; without O_TRUNC an existing lock file keeps its content; no other file is touched |
| Tracker.ReadTracker | internal/tracker/tracker.go:89-103 | a missing, unopenable or unreadable state file gives four empty lists; otherwise the decoded value, or the empty tracker when decoding is rejected |
| Tracker.Load | internal/tracker/tracker.go:72-104 | Load pulls and ignores the pull's error. It creates at most the lock file and reads the state file from the resulting files. The shared lock is taken and released exactly when the lock file opens |
| Tracker.LoadCreatesNoStateFile | internal/tracker/tracker.go:81-93 | taking the lock never makes a state file appear |
| Tracker.LoadReadsWithoutLock | internal/tracker/tracker.go:82-90 | the read gives the same tracker whether or not the lock file could be opened |
| Tracker.LoadReturnsDecoded | internal/tracker/tracker.go:97-103 | a state file that decodes to a tracker is returned as that tracker |
| Runner.ScriptPath | internal/runner/runner.go:13 | the script path is the scripts directory joined with the script name |
| Runner.ScriptSpec | internal/runner/runner.go:19-23 | the process is `bash <script path> <extra...>`, in the project root, the extra arguments one for one after the path |
| Runner.Execute | internal/runner/runner.go:12-30 | a missing script logs "not found", starts nothing and fails. Otherwise exactly one bash process starts, and the verdict is true exactly when it exits with status 0 |
| Runner.ExecuteScript | internal/runner/runner.go:12-30 | the log grows by exactly the events of `Execute`, and the result is its verdict |
| Runner.DeclaredSpecDropsExtraArgs | internal/runner/runner.go:12-19 | with the one-parameter signature, any extra arguments are lost: the child is the one started with none |
| Runner.CleanupSpec | internal/runner/runner.go:33-40 | cleanup runs `cleanup_resources.sh` through the same runner shape, with "--force" after the path exactly when forced |
| Runner.Cleanup | internal/runner/runner.go:32-50 | cleanup always starts the process, with no existence check, and reports success exactly when it exits with status 0 |
| Aws.CheckCredentials | internal/aws/aws.go:7-13 | each check starts `aws sts get-caller-identity` afresh and passes exactly when it exits with status 0 |
| Ui.JoinLength | internal/ui/ui.go:21 | a join is as long as its elements plus one separator between each pair |
| Ui.JoinStartsWithFirst | internal/ui/ui.go:21 | a join begins with its first element |
| Ui.IdCell | internal/ui/ui.go:18-25 | the cell never exceeds 26 bytes. It is "None" for no IDs, the whole join when that fits, and otherwise the join's first 23 bytes then "...", exactly 26 bytes |
| Ui.ShortListShownWhole | internal/ui/ui.go:20-22 | IDs whose lengths plus separators fit in 26 bytes are shown in full |
| Ui.CellIsPrefixOfJoin | internal/ui/ui.go:19-24 | the first 23 bytes of the cell are always the join's own |
| Ui.FirstIdVisible | internal/ui/ui.go:19-24 | a first ID of at most 23 bytes is always visible whole at the start of the cell |
| Ui.ResourceRow | internal/ui/ui.go:17-30 | the count is the number of IDs; it is yellow exactly when there are none; the IDs column is the cell above |
| Ui.NoneIdLooksLikeEmpty | internal/ui/ui.go:18-21 | for every row label, a single ID "None" prints the same cell as no IDs; only the count and colour differ |
| Auto.SequenceCons | cmd/aws-automator/commands/auto.go:38-45 | the sequence is the first step, then, only if it succeeded, a settle delay and the sequence of the rest |
| Auto.Passed | cmd/aws-automator/commands/auto.go:38-43 | the count of leading steps that succeed: all before it succeed, and the one at it (if any) fails |
| Auto.ScriptPaths | cmd/aws-automator/commands/auto.go:28-36 | the steps' script paths, position by position |
| Auto.SettleShape | cmd/aws-automator/commands/auto.go:44 | a settle delay is one sleep, attempts no script and shows nothing |
| Auto.SequenceOkIffAllPass | cmd/aws-automator/commands/auto.go:38-45 | the sequence succeeds exactly when every step does |
| Auto.AttemptsCons | cmd/aws-automator/commands/auto.go:38-43 | a failing first step is the only attempt; after a success, one more than the rest |
| Auto.SequenceAttemptsPrefix | cmd/aws-automator/commands/auto.go:38-43 | the scripts attempted are the steps' scripts in order, up to and including the first failure, and no later one |
| Auto.SequenceSleeps | cmd/aws-automator/commands/auto.go:38-45 | one settle delay per successful step, including the last, and none when settling is off |
| Auto.SequenceShape | cmd/aws-automator/commands/auto.go:38-45 | the sequence never shows status, and every script it starts gets exactly the shared extra arguments |
| Auto.ChainSnoc | cmd/aws-automator/commands/auto.go:38-45 | after a successful prefix, one more run adds its events, then a settle delay only on success |
| Auto.ChainStopsAtFailure | cmd/aws-automator/commands/auto.go:40-43 | once a run fails, nothing after it happens and nothing is undone |
| Auto.PrefixGrows | cmd/aws-automator/commands/auto.go:38-45 | a successful step i extends the prefix by its events and a settle delay |
| Auto.PrefixEnds | cmd/aws-automator/commands/auto.go:40-43 | a failing step i is the end of the whole sequence |
| Auto.PrefixAll | cmd/aws-automator/commands/auto.go:38-48 | all steps done is the whole sequence |
| Auto.RunStep | cmd/aws-automator/commands/auto.go:39-44 | one loop iteration keeps the loop invariant, or on failure leaves exactly the whole sequence's log |
| Auto.RunSteps | cmd/aws-automator/commands/auto.go:38-45 | the loop's log and verdict are those of the step sequence |
| Auto.RunAuto | cmd/aws-automator/commands/auto.go:19-49 | runAuto's log is the probe, then the sequence with settle delays, then the status table when every step succeeded |
| Auto.AutoWithoutCredentials | cmd/aws-automator/commands/auto.go:22-26 | without credentials nothing but the probe runs, and no status is shown |
| Auto.AutoAttemptsInOrder | cmd/aws-automator/commands/auto.go:28-43 | the scripts attempted are a prefix of the creation order, ending at the first failure |
| Auto.CreationOrder | cmd/aws-automator/commands/auto.go:28-36 | the order is security group, then EC2 instance, then S3 bucket |
| Auto.AutoSleepsPerSuccess | cmd/aws-automator/commands/auto.go:38-45 | the number of sleeps equals the number of successful steps |
| Auto.AutoStatusIffAllSucceed | cmd/aws-automator/commands/auto.go:47-48 | status is shown exactly when the credentials pass and all three steps succeed |
| Auto.ResourceScript | cmd/aws-automator/commands/plan.go:33-39 | exactly "sg", "ec2" and "s3" select a script: the first, second and third creation step's |
| Auto.DispatchReport | cmd/aws-automator/commands/plan.go:25-44 | the command refuses without credentials; it names the value as unknown exactly when it is none of sg, ec2, s3, all |
| Plan.RunAutoPlan | cmd/aws-automator/commands/plan.go:48-67 | the preview runs the creation sequence with "--dry-run" and no delays, and reports completion exactly when it succeeds |
| Plan.PlanResource | cmd/aws-automator/commands/plan.go:33-45 | the switch runs what the selection says, and flags exactly the unknown values |
| Plan.RunPlan | cmd/aws-automator/commands/plan.go:22-46 | runPlan's log is the probe, then the selection; the flag defaults to "all" |
| Plan.PlanWithoutCredentials | cmd/aws-automator/commands/plan.go:25-28 | when the credential check fails, the preview runs nothing after the probe, for any resource value, and reports the refusal |
| Plan.PlanAlwaysDryRun | cmd/aws-automator/commands/plan.go:31-61 | for any resource value, every script the preview starts is given exactly "--dry-run" |
| Plan.PlanNeverSleepsOrShowsStatus | cmd/aws-automator/commands/plan.go:59-66 | the preview never sleeps and never shows status |
| Plan.PlanAllAttemptsInOrder | cmd/aws-automator/commands/plan.go:40-61 | "all" previews the creation scripts in creation order, up to the first that fails |
| Plan.PlanCompleteIffAllPass | cmd/aws-automator/commands/plan.go:59-66 | the completion message is printed exactly when all three previews succeed |
| Plan.PlanSingleResource | cmd/aws-automator/commands/plan.go:33-39 | a single resource previews its one matching script and nothing else |
| Plan.PlanUnknownRunsNothing | cmd/aws-automator/commands/plan.go:43-44 | an unknown value runs nothing after the probe and is reported |
| Create.CreateResource | cmd/aws-automator/commands/create.go:25-37 | the switch runs what the selection says, and flags exactly the unknown values |
| Create.RunCreate | cmd/aws-automator/commands/create.go:18-38 | runCreate's log is the probe, then the selection; the flag defaults to "all" |
| Create.CreateWithoutCredentials | cmd/aws-automator/commands/create.go:19-23 | when the credential check fails, creation runs nothing after the probe, for any resource value, and reports the refusal |
| Create.CreateAllProbesTwice | cmd/aws-automator/commands/create.go:19-34 | "all" is runAuto after create's own probe, so the probe runs twice before any script |
| Create.CreateNeverPassesArguments | cmd/aws-automator/commands/create.go:26-34 | for any resource value, creation gives its scripts no arguments |
| Create.CreateAndPlanSameScript | cmd/aws-automator/commands/create.go:26-32 | a single resource creates with the same script its preview runs |
| Create.CreateSingleIsQuiet | cmd/aws-automator/commands/create.go:26-32 | a single resource never sleeps and never shows status |
| Create.CreateUnknownRunsNothing | cmd/aws-automator/commands/create.go:35-36 | an unknown value runs nothing after the probe and is reported |
| State.InitScriptArgs | cmd/aws-automator/commands/state.go:60-63 | "--bucket" and the bucket always come first; "--region" and the region follow exactly when the region is non-empty |
| State.RunStateInit | cmd/aws-automator/commands/state.go:54-66 | state init runs `init_state.sh` through the runner with those arguments |
| State.InitPassesBucketAndRegion | cmd/aws-automator/commands/state.go:60-65 | the bash child receives the bucket, and the region exactly when one is given, each after its flag |
| State.PullNotice | cmd/aws-automator/commands/state.go:68-81 | pull says "not configured" exactly when remote state is off, and reports exactly the pull's error |
| State.RunStatePull | cmd/aws-automator/commands/state.go:68-81 | the subcommand's notice, log and files follow the pull; the error is reported, not propagated |
| State.PullFailsOnlyOnRealError | cmd/aws-automator/commands/state.go:76-80 | a pull is reported failed exactly when the download fails with a status other than 1 |
| State.PushNotice | cmd/aws-automator/commands/state.go:83-96 | push says "not configured" exactly when remote state is off, and reports exactly the push's error |
| State.RunStatePush | cmd/aws-automator/commands/state.go:83-96 | the subcommand's notice, log and remote store follow the push; the error is reported, not propagated |
| State.DisabledPullAndPushDoNothing | cmd/aws-automator/commands/state.go:69-89 | with remote state off, neither subcommand starts a command or changes a file or an object |
| State.PushWithoutLocalState | internal/tracker/tracker.go:53-55 | a push with no local state file is refused before any command starts |
| State.PushThenPullCommands | cmd/aws-automator/commands/state.go:68-96 | a successful push and pull both report success, and the local files come back unchanged |
| State.StateShow | cmd/aws-automator/commands/state.go:98-114 | show displays the configuration exactly when remote state is on, with the bucket, key and region as configured |
| State.ShownUriIsPullSourceAndPushTarget | cmd/aws-automator/commands/state.go:101-106 | the URI and region shown are the ones pull downloads from and push uploads to |

## Left out

- Child processes are not run. `bash`, `aws s3 cp` and `aws sts get-caller-identity` are described by a `ProcessSpec`, and their results come from an oracle. Within one invocation the same process description always gets the same outcome.
- The scripts' own effects are not modelled: the cloud resources and the script-side updates to the tracker file.
- Output text, colours, emojis and progress lines are left out. Only decisions that show in the output are kept: the unknown-resource and no-credentials reports, the plan's completion, the pull and push notices, and the "script not found" event.
- The child's stdout, stderr and environment wiring (`command.Env = os.Environ()`) is left out; it does not change any decision.
- `os.Stat` errors other than "does not exist" are not modelled. A path is either among the files or not; the source treats other errors as "exists".
- `flock` is not modelled. Load records the shared lock and its release as ghost events only, since cross-process exclusion is operating-system behaviour.
- `json.Unmarshal` is an abstract decoder. A decode that fills some fields before failing is represented by the decoder returning that partial tracker.
- The length of `time.Sleep` is only recorded as 2 seconds in the `Sleep` event; time does not pass in the model.
- Text is bytes: each `char` of a string stands for one byte, and this includes the resource IDs the decoder returns. UTF-8 and multi-byte IDs are not modelled, so `Ui.IdCell`'s cut after 23 characters is the byte cut of internal/ui/ui.go:23 only under that assumption; the source can split a multi-byte character there.
- `filepath` is not reimplemented. Paths are component sequences with Join, Dir and Base; cleaning, separators and symlinks are not modelled.
- `ShowStatus` stands for `runStatus`, which loads the tracker and prints four rows (status.go is not part of this model beyond `Ui.ResourceRow`). The log does not expand it into the load's own events, and the load's effects on files are not applied either. It creates the `.lock` file beside the state file, and with remote state on its `aws s3 cp` download can overwrite the local state file (internal/tracker/tracker.go:76-82). So the `modifies h`log` frame of `Auto.RunAuto` and `Create.RunCreate` does not mean that `auto` leaves the files alone.
- `interactive.go`'s menu loop and `cleanup.go`'s confirmation prompt are left out; only `runner.Cleanup` itself is modelled.
- Cobra wiring is left out: command registration, flag parsing, and `MarkFlagRequired` for `state init --bucket`, which cobra enforces before the handler runs. The `--resource` default "all" is modelled through `Option.GetOr` in `Plan.RunPlan` and `Create.RunCreate`.
- Exit codes of killed children follow Go's `ExitCode()` (-1). They count as failures and are not otherwise distinguished.
- `Auto.RunSteps` is one loop shared by runAuto (settle delays, no extra arguments) and runAutoPlan ("--dry-run", no delays). The source writes the loop twice; the two copies differ only in those two parameters and their messages.
- Config.Globals.Init and the other methods that change state are specified with `old(...)`; their meaning is carried by the pure functions and lemmas beside them.

## Findings

| source | as written | input that shows it | evidently intended | confidence | as-written member | corrected member |
|---|---|---|---|---|---|---|
| internal/runner/runner.go:12 | `ExecuteScript` declares the single parameter `scriptName` and starts `bash <script path>`. Yet plan.go (lines 35-39 and 61) calls it with "--dry-run", and state.go (line 65) with `scriptArgs...`. Go rejects those calls as having too many arguments; under the declared signature the extra arguments could never reach the child. | `plan -r sg`: the declared runner would start `bash scripts/create_security_group.sh` with no "--dry-run", the same process `create -r sg` starts, so the preview would create the security group | a variadic `ExecuteScript(scriptName string, args ...string)` that appends the arguments after the script path | not executed | Runner.DeclaredSpecDropsExtraArgs | Runner.ScriptSpec |
