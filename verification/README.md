# A verified model of the script executor

The script executor runs `script.run` steps as Kubernetes Jobs. An execution loads a script, validates it
and its image, may have to wait for a human approval, becomes a Job and is watched until the Job ends.
Approval requests are records in one ConfigMap which any number of concurrent `Execute`, approve and deny
calls of two replicas (`deploy/k8s/deployment.yaml:9`) read and write under Kubernetes' optimistic
concurrency.

`dafny verify dfyconfig.toml` checks everything.

## How it is laid out

The approval protocol (`internal/approval`, and the gate in `Manager.Execute`):

- `ApprovalRecords`: the stored request, its key, the expiry view of `Get`.
- `ApprovalProtocol`: the concurrent system. Every step of a client is one call to the API server or one
  reading of the clock; steps of any number of clients interleave freely with each other, with the passing
  of time and with the removal of finished Jobs. A call may be dropped, or take effect and lose its reply.
- `ProtocolInvariants`: the inductive invariant; among other things, a write whose snapshot carries the
  current version carries the current contents, and every stored record is well formed under its own key.
- `ApprovalSafety`: what holds in every run under every interleaving.
- `ApprovalRefinement`: runs without overlap on a key refine an atomic map of requests.
- `ApprovalFinality`: the life of one key, and exactly when Approved and Denied are final, in every run.
- `ApprovalAnswers`: what the operations answer and store, field by field, and who may decide.
- `ApprovalStanding`: exactly when a decision stands, told from the state in which it is taken.
- `ApprovalOverlap`: runs, for any executions, in which a decision is overwritten, reopened or defeated.
- `ApprovalExpiry` and `ApprovalTwins`: the expiry write inside `Get`, whose result the code ignores. It is
  unobservable, but not free.
- `ApprovalOrigins`: stored requests come from executions; exactly when the text that runs is one that was
  approved.
- `ApprovalStore`: `ConfigMapStore` and `Checker` as objects with methods over an API server object. Each
  method is proved to take its caller's client through exactly the steps of the protocol, so what the
  other modules prove of steps is proved of this code.
- `ApprovalProgress`: every call ends within eight steps of its own, and an undisturbed call succeeds.

The rest of the pipeline: `ScriptLoader` (`internal/script`), `ScriptValidator` (`internal/security`),
`ImageValidator` (`internal/image`), `JobBuilder`, `JobMonitor` and `ExecutionManager`
(`internal/execution`). `Common` holds string operations and option and result types.

## Where the code is less than its documentation, or than one might expect

- Approved and Denied are final only as far as later writers have seen them. `Update` reads the ConfigMap
  again before it writes (`internal/approval/store.go:121`), so the version check does not protect a decision
  taken on an earlier read: two overlapping decisions on one key can both be acknowledged, the later write
  winning (`ApprovalOverlap.OverlapOverwritesDenial`). And `Check` answers a failed read as it answers a
  missing request (`internal/approval/checker.go:43-47`), whereupon the execution stores a new pending
  request over the decision (`ApprovalOverlap.FailedReadReopensDenial`). These are the only two ways.
  `ApprovalFinality.FinalUnlessStale` gives the exact condition on the run. `ApprovalStanding.StandsExactly`
  gives it on the state: as long as no execution's first read of the key fails, the record is never written
  over if and only if no client stands where it can still store something there.
- The expiry write of `Get` changes no answer (`ApprovalTwins.ExpiryWriteBisimilar`), but like any commit it
  makes a concurrent write to another key lose its version check (`ApprovalExpiry.WriteFailsExactly`,
  `ApprovalOverlap.ExpiryWriteDefeatsApproval`).
- `Check` ignores the script, the hash, the approvers and the user it is given
  (`internal/approval/checker.go:42-60`). An execution can run on the approval of another text with the same
  key (`ApprovalOrigins.RunsTextOfAnother`). The text that runs is sure to be an approved one if and only if
  all executions that can be approved at the key, or run there, bring one text
  (`ApprovalOrigins.RunsApprovedTextExactly`).
- Keys join execution ID and step name with a dash. They are ambiguous when step names contain dashes;
  `ApprovalRecords.KeyCollision` says exactly when two pairs share a key.
- `LoadScript` is documented to need exactly one source (`internal/script/loader.go:97`); it takes the first
  one given and ignores the others (`ScriptLoader.FirstSourceWins`).
- The script scanner stops at the first line that does not fit its 64 KiB buffer and its error is not looked
  at (`internal/security/script_validator.go:72-103`): commands on later lines are not checked. So a blocked
  command is accepted behind a line of 65536 bytes (`ScriptValidator.BlockedCommandGetsThrough`).
  `ScriptValidator.AcceptsByLine` says which lines count, `ScriptValidator.AcceptsUnpermittedExactly` which
  scripts get through with a line that is not permitted.
- A command behind `||` at the start of a line is not recognized: the code takes off a single `|` first
  (`internal/security/script_validator.go:86-88`), and what that leaves of `||rm` is `|rm`
  (`ScriptValidator.DoubleBarGetsThrough`). `ScriptValidator.WordOfTwo` and `ScriptValidator.WordOfOne` give the
  command word of every line from its characters.
- Nothing checks that the mount paths of a request differ from each other and from the fixed ones
  (`internal/execution/job_builder.go:307-320`), which Kubernetes demands; `JobBuilder.SecretFilesAppear` and
  `JobBuilder.ConfigMapFilesAppear` have the condition.
- 524288 is commented as 500KB (`internal/security/script_validator.go:20`); the model keeps 524288.
- After the watch closed, `Wait` reports the re-fetched Job whatever its state
  (`internal/execution/monitor.go:62-67`), so a running Job is reported as FAILED
  (`JobMonitor.UnfinishedIsReported`).
- A first failed Pod counts as the failure of the Job (`internal/execution/monitor.go:110`), even if the Job
  goes on to succeed on a retry (`JobMonitor.FirstFailureIsReported`).
- The two-second timer starts afresh at every turn of the loop (`internal/execution/monitor.go:82`), so events
  that keep coming keep `Wait` from ever re-fetching the Job (`JobMonitor.NoiseStarvesPolling`). This is why
  `JobMonitor.FinishIsReported` counts the events when only fetches show the Job finished.

## Model

| member | source | states |
|---|---|---|
| ApprovalRecords.KeyCollision | internal/approval/store.go:86 | two (execution ID, step name) pairs have the same key if and only if one is obtained from the other by moving a dash-separated piece across the joining dash |
| ApprovalRecords.KeyInjective | internal/approval/store.go:99 | for dash-free step names and arbitrary execution IDs the key determines the pair |
| ApprovalRecords.ContainsIsListed | internal/approval/checker.go:62-69 | a name is contained if and only if some entry of the list has its text, up to case |
| ApprovalRecords.ContainsPlainly | internal/approval/checker.go:62-69 | without case folding, if and only if it is an entry |
| ProtocolInvariants.ActOk | internal/approval/store.go:68-141 | any single step of any client, with any fault, keeps the whole invariant: well-formed justified commits, gate kept, snapshots current or stale, the client's own knowledge |
| ProtocolInvariants.ReReadOk | internal/approval/store.go:121-126 | the re-read of `Update` always finds data, so its assignment into the map it read is never into a nil map |
| ProtocolInvariants.CommitOk | internal/approval/store.go:126-127 | a write that passes the version check changes exactly the key it was issued for, in the data as it is now, although it was computed from an earlier snapshot |
| ProtocolInvariants.RunOk | internal/approval/store.go:68-141 | every state of every run satisfies the invariant; the clock, the log, the key set and the version only grow |
| ApprovalSafety.StepChangesOneKey | internal/approval/store.go:79-91 | every step of the system leaves all records alone or commits one record at its caller's key; the race to create the ConfigMap, won or lost, resets nothing |
| ApprovalSafety.NoLostUpdates | internal/approval/store.go:116-141 | in every run the stored data is the latest commit of every key; keys never disappear; a record changes only by a later commit at its own key |
| ApprovalSafety.RecordsWellFormed | internal/approval/store.go:69-87 | every record ever stored sits under its own key, expires 24h after creation, carries exactly the stamps of its status, the decider being on its approver list; Expired means the expiry has passed |
| ApprovalOrigins.RunHasOrigins | internal/approval/checker.go:25-39 | every record ever stored carries the fields of some execution that arrived and needed approval; every Job made had a valid context |
| ApprovalOrigins.GetFindsItsOwn | internal/approval/store.go:99-107 | if no execution that needs approval arrives with a dash in its step name, what is stored for an execution and step belongs to them |
| ApprovalOrigins.FindsItsOwnExactly | internal/approval/store.go:99-107 | in all runs of a set of executions what is stored for a pair belongs to it if and only if no other pair among those that need approval has its key |
| ApprovalOrigins.OneTextSuffices | internal/approval/checker.go:42-60 | if all who can be approved or run at a key bring one text, every gated Job there follows an authorized approval of exactly the text it runs |
| ApprovalOrigins.RunsTextOfAnother | internal/approval/checker.go:42-60 | for any two gated executions with one key, a run without overlap and faults in which the second runs its own text on the approval of the first one's |
| ApprovalOrigins.RunsApprovedTextExactly | internal/execution/manager.go:226-245 | all runs of a set of executions run only approved texts at a key if and only if that set has one text there |
| ApprovalSafety.NobodyCrashes | internal/approval/store.go:121-126 | no client in any run assigns into a nil map |
| ApprovalSafety.GateSoundness | internal/execution/manager.go:219-245 | in every run, a gated Job in the log comes after an Approved commit at its key, by a user on the record's approver list who tested it before its expiry |
| ApprovalFinality.FreshApproval | internal/execution/manager.go:219-245 | from any moment of any run at which a key is not approved and no execution under way saw it approved: a gated Job made for it later comes after an authorized approval committed since |
| ApprovalSafety.OneJobPerExecution | internal/execution/manager.go:261-270 | between two Jobs made for one execution ID the first was removed |
| ApprovalSafety.LiveJobsDistinct | internal/execution/job_builder.go:27-30 | two existing Jobs never belong to one execution ID |
| ApprovalRefinement.DecideSimulates | internal/approval/checker.go:42-85 | what a current client decides and answers is what the atomic map answers |
| ApprovalRefinement.FinalWriteSimulates | internal/approval/store.go:121-128 | a final write that commits is the atomic operation, answer and new record included |
| ApprovalRefinement.ExpiryWriteSimulates | internal/approval/store.go:108-111 | a committed expiry write is invisible to the atomic map |
| ApprovalRefinement.StepSimulates | internal/approval/store.go:68-141 | one step of the system, overlap-free, is at most one operation of the atomic map and keeps the refinement relation |
| ApprovalRefinement.Refinement | internal/approval/store.go:68-141 | every run without overlap on a key is a run of the atomic map: same answers to callers, same records up to expiries written down, each caller at most once, callers that failed without effect |
| ApprovalRefinement.RunReports | internal/approval/checker.go:72-106 | the trace of operations contains exactly one matching event for each caller that left the store with an answer |
| ApprovalRefinement.TraceTimely | internal/approval/store.go:108 | the clock readings at which an operation takes effect lie within the run, expiry test before stamp |
| ApprovalAnswers.ApproveAnswers | internal/approval/checker.go:72-87 | the answer and the stored record of an approval, field by field, from the record it finds, the clock and the approver list |
| ApprovalAnswers.DenyAnswers | internal/approval/checker.go:90-106 | the same for a denial, its reason included |
| ApprovalAnswers.ExecuteAnswers | internal/execution/manager.go:226-245 | the same for the gate: pass, stop, or a new request of a day's validity with the execution's own fields |
| ApprovalAnswers.OnlyListedUsersDecide | internal/approval/checker.go:80-105 | in every run, an approval or denial commits either the decision of a listed user on a request he found open, as he gave it, or the expiry of one he found run out |
| ApprovalAnswers.AnswersAreTrue | internal/approval/checker.go:72-106 | in every run, an acknowledged decision is in the log and was a listed user's; a user is turned away as unauthorized only if he is not listed on the open request he found; a request reported as not pending was not |
| ApprovalFinality.Lifecycle | internal/approval/checker.go:72-106 | without overlap, every commit moves its key Pending to Pending, Approved, Denied or Expired, or Expired to Pending, or comes from an execution whose read failed |
| ApprovalFinality.OverwriteIsStale | internal/approval/store.go:116-128 | a commit straight over an approval or denial comes from a client that read the store no later than that decision, or whose read failed |
| ApprovalFinality.FinalUnlessStale | internal/approval/store.go:116-128 | in every run, whatever overlaps: an approval or denial is written over if and only if such a commit occurs at its key; otherwise the record is kept |
| ApprovalFinality.FinalUnlessBlind | internal/approval/checker.go:42-60 | from any moment of any run at which a key is decided and no client inside the store has read it open, its record is never written over if and only if no execution whose read failed stores a request there |
| ApprovalFinality.ExclusiveIsCalm | internal/approval/store.go:94-129 | where operations on one key do not overlap, no client inside the store has read a decided key open |
| ApprovalFinality.FinalWhenReadsSucceed | internal/approval/checker.go:43-47 | the decision stands for ever if at that moment no client inside the store read the key before it or failed to, and no later execution's first read of the key fails |
| ApprovalStanding.StandsExactly | internal/approval/store.go:94-129 | from any state satisfying the invariant in which a key is approved or denied: in every continuation in which no execution's first read of the key fails its record is never written over, if and only if no client may still overwrite it, as told from its program point, what it saw and its snapshot |
| ApprovalStanding.ReachedDecisionStandsExactly | internal/approval/store.go:94-129 | the same for every state that a run reaches |
| ApprovalStanding.OverwritingRun | internal/approval/store.go:108-128 | for each client that may still overwrite a decision, a continuation without faults in which it does |
| ApprovalFinality.DeniedNeverRuns | internal/execution/manager.go:231-244 | from a moment of any run at which a key is denied and every client under way there saw the denial or nothing: a gated Job made for it later comes after a blind new request and an authorized approval of that; without a blind write there is none |
| ApprovalFinality.DeniedNeverRunsWhenReadsSucceed | internal/execution/manager.go:231-244 | if further nobody under way failed to read and no later execution's first read fails, no gated Job is ever made for it |
| ApprovalOverlap.OverlapOverwritesDenial | internal/approval/store.go:116-128 | for every plan and approver: a run in which an acknowledged denial is overwritten by an acknowledged overlapping approval |
| ApprovalOverlap.FailedReadReopensDenial | internal/approval/checker.go:43-47 | for every plan and approver: a run without overlap in which a failed read puts a pending request over a denial |
| ApprovalTwins.StepTwins | internal/approval/store.go:94-141 | each step from one of two stores that differ only in expiries written down is matched from the other, the same operation, if any, taking effect |
| ApprovalTwins.ExpiryWriteBisimilar | internal/approval/store.go:108-112 | for every overlap-free run from one of two such stores there is an overlap-free run from the other with the same calls, clock readings and answers, every call ending as it did, failures included, and stores that again differ only so; the relation is symmetric |
| ApprovalExpiry.ExpiryWriteUnobservable | internal/approval/store.go:108-112 | any two overlap-free runs from such stores in which the same calls take effect give the same answers, whatever happened to the expiry writes |
| ApprovalExpiry.WriteFailsExactly | internal/approval/store.go:121-127 | a write that meets no fault fails if and only if anything at all was committed between its re-read and it |
| ApprovalOverlap.ExpiryWriteDefeatsApproval | internal/approval/store.go:108-112 | for any two executions with different keys: a run without faults or overlap in which an authorized approval of a pending request fails because the other's expiry was written down |
| ApprovalProgress.WaitFree | internal/approval/store.go:68-141 | whatever others do and whatever fails, a client that makes eight steps of its own has ended |
| ApprovalProgress.UndisturbedCallSucceeds | internal/approval/checker.go:72-106 | alone and without faults, an approval or denial never fails, gets the atomic map's answer and takes its effect |
| ApprovalProgress.UndisturbedExecutionFails | internal/execution/manager.go:219-270 | alone and without faults, an execution ends in an error only for an invalid context or a taken Job name |
| ApprovalStore.SoloIsRun | internal/approval/store.go:68-141 | a client on its own is a run of the protocol |
| ApprovalStore.SoloServes | internal/approval/checker.go:72-106 | a complete solo run of approve or deny is one atomic operation, or failed without effect, or only lost its reply |
| ApprovalStore.ConfigMapStore.Create | internal/approval/store.go:68-91 | stamping, get-or-create and conditional write are exactly the protocol's steps from the decision to the stored request |
| ApprovalStore.ConfigMapStore.Get | internal/approval/store.go:94-113 | the read, the expiry test and the ignored expiry write are exactly the protocol's steps, and the returned record is the one read, under the expiry view |
| ApprovalStore.ConfigMapStore.Update | internal/approval/store.go:116-129 | re-read and conditional write are exactly the protocol's steps |
| ApprovalStore.ConfigMapStore.GetOrCreate | internal/approval/store.go:131-141 | returns the object read or created, or fails, exactly as the protocol's steps |
| ApprovalStore.Checker.CreateRequest | internal/approval/checker.go:25-39 | fills in the default approvers and stores the request of the caller's plan |
| ApprovalStore.Checker.Check | internal/approval/checker.go:42-60 | Approved and Denied are reported as such; pending, expired, missing and unreadable requests all as pending |
| ApprovalStore.Checker.Approve | internal/approval/checker.go:72-87 | follows the protocol to its end, and is served as one atomic operation or fails without effect |
| ApprovalStore.Checker.Deny | internal/approval/checker.go:90-106 | likewise for denials |
| ScriptLoader.LoadedIsTruthful | internal/script/loader.go:98-169 | the loaded text is the one the request gives, or the one stored at the place the request, or the registry entry it names, refers to; a path source carries no text and names an approved key |
| ScriptLoader.FirstSourceWins | internal/script/loader.go:98-168 | the first source given in the fixed order decides, whatever the request says about later ones, and the loaded source is of that kind |
| ScriptLoader.NoSourceGiven | internal/script/loader.go:168 | a request is refused for lack of a source if and only if it gives none |
| ScriptLoader.LoadsInline | internal/script/loader.go:100-102 | an inline text is what is loaded |
| ScriptLoader.LoadsConfigMap | internal/script/loader.go:105-124 | a ConfigMap reference loads if and only if it points at a stored text, in the namespace it names or the executor's own, and loads that text |
| ScriptLoader.LoadsSecret | internal/script/loader.go:127-146 | the same for a Secret reference |
| ScriptLoader.LoadsPath | internal/script/loader.go:149-158 | a path loads no text, and succeeds if and only if it is `/scripts/` and a key of `approved-scripts` |
| ScriptLoader.LoadsById | internal/script/registry.go:41-108 | a script ID loads if and only if its registry entry names exactly one object and a key it holds, and loads that text |
| ScriptLoader.ListAsWritten | internal/execution/params.go:50-60 | a listed parameter is read entry by entry, an entry that is not a text as an empty one |
| ScriptLoader.PathAccepted | internal/script/loader.go:197-214 | a script path is accepted if and only if it is `/scripts/` followed by a non-empty key of approved-scripts |
| ScriptValidator.ExtractCommands | internal/security/script_validator.go:72-103 | the loop returns exactly the command words of the lines the scanner reaches, without duplicates, in some order |
| ScriptValidator.NonBlankHasField | internal/security/script_validator.go:82-85 | a line that is not blank after trimming always has a first word |
| ScriptValidator.MatchesIsMembership | internal/security/script_validator.go:105-114 | a command matches a pattern if and only if it belongs to the pattern's language |
| ScriptValidator.Validate | internal/security/script_validator.go:34-70 | accepts if and only if the bounds hold, no command word is blocked and all are allowed, for every iteration order of the command map; each refusal names a true reason, in the code's order of precedence |
| ScriptValidator.CommandsConcat | internal/security/script_validator.go:72-103 | the commands of `a + "\n" + b` are those of `a` together with, if the scanner gets through `a`, those of `b` |
| ScriptValidator.AcceptsConcat | internal/security/script_validator.go:34-70 | when a concatenation is accepted, for all scripts |
| ScriptValidator.AcceptsBothParts | internal/security/script_validator.go:34-70 | if the scanner gets through the first part, the concatenation is accepted if and only if both parts are and the bounds hold for the whole |
| ScriptValidator.CommandsByLine | internal/security/script_validator.go:72-96 | a word is among the commands if and only if some line, split at newlines, has it as its command word and that line and all before it fit the scanner |
| ScriptValidator.ScansFullyByLine | internal/security/script_validator.go:74-76 | the scanner gets through if and only if every line fits |
| ScriptValidator.LineCountIsLines | internal/security/script_validator.go:38-42 | the line bound counts these lines |
| ScriptValidator.AcceptsByLine | internal/security/script_validator.go:34-70 | a script is accepted if and only if the bounds hold and the command word of every reached line is permitted |
| ScriptValidator.AcceptsEveryLine | internal/security/script_validator.go:34-70 | if every line fits, accepted if and only if the bounds hold and the command word of every line is permitted |
| ScriptValidator.AcceptsUnpermittedExactly | internal/security/script_validator.go:72-103 | exactly which scripts are accepted with a line that is not permitted |
| ScriptValidator.BlockedCommandGetsThrough | internal/security/script_validator.go:72-103 | a script accepted under the default bounds whose second line is a blocked command |
| ScriptValidator.WordOfTwo | internal/security/script_validator.go:77-95 | the command word of a line of two words or more, from its characters: the first without its operators, unless that is `sudo` or `su`, in which case the second |
| ScriptValidator.WordOfOne | internal/security/script_validator.go:77-95 | the command word of a line of one word |
| ScriptValidator.NoWord | internal/security/script_validator.go:77-80 | blank lines and comments have none |
| ScriptValidator.OperatorIsTakenOff | internal/security/script_validator.go:86-89 | one leading operator, a bar, a double ampersand or a semicolon, is taken off |
| ScriptValidator.DoubleBarIsHalved | internal/security/script_validator.go:86-88 | of a leading double bar only one bar is taken off |
| ScriptValidator.DoubleBarGetsThrough | internal/security/script_validator.go:86-88 | `rm` is blocked, but accepted behind a double bar |
| ScriptValidator.ElevatedIsRefused | internal/security/script_validator.go:90-94 | a script with a reached line in which `sudo` or `su` stands before a blocked word is refused |
| ScriptValidator.CarriageReturnIsBlank | internal/security/script_validator.go:77 | a carriage return at the end of a line changes no command word |
| ScriptValidator.BytesByRange | internal/security/script_validator.go:35-37 | the size in bytes, from the code points |
| ScriptValidator.LongestLine | internal/security/script_validator.go:74-76 | a line of 65535 bytes is scanned, a longer one is not |
| ScriptValidator.Defaults | internal/security/script_validator.go:18-31 | the bounds that stand in for those that are not positive |
| ImageValidator.MatchesIsMembership | internal/image/validator.go:49-59 | an image matches a pattern if and only if it belongs to the language of the trimmed pattern, which must not be blank |
| ImageValidator.AcceptsExactly | internal/image/validator.go:23-47 | accepted images are the union of the approved languages, or everything if none is listed, minus the union of the blocked ones |
| ImageValidator.RefusesForItsReason | internal/image/validator.go:29-44 | an image is refused as blocked if and only if a blocked pattern describes it, and for such a pattern; any other only for being on no approved pattern |
| ImageValidator.OrderIrrelevant | internal/image/validator.go:23-47 | reordering or duplicating entries of either list changes no verdict |
| JobBuilder.JobNameInjective | internal/execution/job_builder.go:27-30 | the Job name determines the non-empty execution ID |
| JobBuilder.JobNameAsWritten | internal/execution/job_builder.go:27-30 | the Job name as text, with the clock for an empty execution ID |
| JobBuilder.BuildVolumes | internal/execution/job_builder.go:203-291 | the loops build the fixed volumes and then one per Secret and ConfigMap entry, in order |
| JobBuilder.BuildVolumeMounts | internal/execution/job_builder.go:293-323 | the loops build the fixed mounts and then one per Secret and ConfigMap entry, in order |
| JobBuilder.VolumeNamesDistinct | internal/execution/job_builder.go:203-291 | no two volumes of a Job share a name, across fixed, secret and configmap families |
| JobBuilder.MountsMatchVolumes | internal/execution/job_builder.go:203-323 | the two lists have the same names in the same order, so every mount resolves to exactly one volume, the one built from the same entry |
| JobBuilder.FixedFilesAppear | internal/execution/job_builder.go:204-240 | every container has a writable workspace and `/tmp`; one that runs from a path, and no other, has `approved-scripts` read-only at `/scripts` |
| JobBuilder.SecretFilesAppear | internal/execution/job_builder.go:242-313 | the files of each requested Secret are mounted read-only at the path requested for it, and are all that is mounted there if and only if no other entry and no fixed mount has that path |
| JobBuilder.ConfigMapFilesAppear | internal/execution/job_builder.go:265-320 | likewise for each requested ConfigMap |
| JobBuilder.BuildEnvVars | internal/execution/job_builder.go:142-178 | for every iteration order of the three maps, the list read with the last entry winning is valid ConfigMap references over valid Secret references over literals |
| JobBuilder.EnvironmentAsAsked | internal/execution/job_builder.go:142-178 | name by name: a usable ConfigMap reference, otherwise a usable Secret reference, otherwise the literal, and nothing else |
| JobBuilder.BuildContainer | internal/execution/job_builder.go:105-140 | image, command, arguments, environment and mounts of the container are those of the context; a path source runs the mounted file, any other the text |
| JobBuilder.Build | internal/execution/job_builder.go:26-103 | the Job's name, container and volumes are those of the context |
| JobMonitor.Wait | internal/execution/monitor.go:39-93 | ends for every environment with the answer of its account: the chain of all its turns, each entered within the deadline and uncancelled, receiving what is there at once and in order, fetching only after two quiet seconds, up to the turn that decides or the deadline or cancellation that stops it |
| JobMonitor.AccountUnique | internal/execution/monitor.go:49-92 | an environment has at most one account |
| JobMonitor.OneAnswer | internal/execution/monitor.go:49-92 | so the environment determines the answer of a wait |
| JobMonitor.NothingSkipped | internal/execution/monitor.go:60-81 | the events received are the first ones of the stream, none skipped |
| JobMonitor.PollBound | internal/execution/monitor.go:82-90 | the timer fires at most timeout/2s + 1 times |
| JobMonitor.TurnsBeginInTime | internal/execution/monitor.go:50-57 | every turn begins by the deadline and before a cancellation, and ends within two seconds |
| JobMonitor.CancelledAtOnce | internal/execution/monitor.go:50-52 | a wait cancelled before it begins observes nothing and answers so |
| JobMonitor.UndecidedEnds | internal/execution/monitor.go:50-57 | a wait without a deciding observation answers cancelled if the cancellation has come when its next turn would begin, otherwise timed out, past the deadline |
| JobMonitor.AnswersExactly | internal/execution/monitor.go:59-92 | what each answer means: a result comes from a state that settles the wait, a deletion error from a deletion, a fetch error from a failed fetch, a watch error from a failed watch |
| JobMonitor.ClosingEndsTheWait | internal/execution/monitor.go:61-68 | no turn that begins after the closing waits or polls, and unread events come first |
| JobMonitor.FinishedExactly | internal/execution/monitor.go:95-111 | which states count as finished |
| JobMonitor.Watch.Select | internal/execution/monitor.go:59-90 | brings the next event in order, the closing of a drained channel, or the timer after two seconds |
| JobMonitor.Turn | internal/execution/monitor.go:59-91 | one turn observes what the environment settles for it, and ends the wait exactly for a decisive observation, with that observation's verdict |
| JobMonitor.ResultOfTheJob | internal/execution/monitor.go:59-117 | a result is that of the awaited Job, seen finished or re-fetched after the channel closed; finished for sure if the channel does not close by the last poll; it is a success if and only if the Job was last seen with a succeeded Pod |
| JobMonitor.FinishIsReported | internal/execution/monitor.go:59-91 | without deletion, closing, cancellation or failed fetch, a Job that an event, or every fetch, shows finished early enough before the deadline is reported, and not as a timeout; how early depends on the unread events and the length of a turn |
| JobMonitor.SuccessIsReported | internal/execution/monitor.go:59-117 | if further only succeeded Jobs are shown as finished, the answer is a success |
| JobMonitor.UnfinishedIsReported | internal/execution/monitor.go:62-67 | an environment in which every wait reports a running Job as one that did not succeed |
| JobMonitor.FirstFailureIsReported | internal/execution/monitor.go:104-111 | an environment in which every wait reports failure for a Job that succeeds on a retry |
| JobMonitor.NoiseStarvesPolling | internal/execution/monitor.go:82-90 | an environment in which every wait times out on a Job that succeeded before it began |
| ExecutionManager.PlanPassesGates | internal/execution/manager.go:182-217 | a plan that steps 1 to 5 let through has truthfully loaded text, validated unless path or empty, a validated image, and a Job that will run exactly these |
| ExecutionManager.PlanAsRequested | internal/execution/manager.go:171-259 | what a plan takes from its request, field by field: identifiers, step name, user, text and hash, approvers, the demand for approval, image, Job name and context |
| ExecutionManager.LetThroughExactly | internal/execution/manager.go:182-217 | which requests steps 1 to 5 let through |
| ExecutionManager.RulesAsConfigured | internal/execution/manager.go:77-82 | scripts are held to the configured blocklist and bounds, and to no allowlist |
| ExecutionManager.TimeoutAsRequested | internal/execution/manager.go:272-276 | a positive timeout of the call comes before the one among its parameters |
| ExecutionManager.EveryJobPassedEveryGate | internal/execution/manager.go:182-270 | in every run, every Job ever made belongs to an execution that arrived, and for the very request it was given and objects it found: the text was truthfully loaded and validated, the image validated, the command made of that text or path, a path names an approved key, and if that request demanded approval an authorized approval came before |
| ExecutionManager.AtMostOneJobPerExecution | internal/execution/manager.go:175-178 | in every run of executions there are never two Jobs for one execution ID |
| ExecutionManager.SuccessIsReported | internal/execution/manager.go:277-297 | a Job that can be seen to have succeeded early enough, in an untroubled environment, is reported SUCCEEDED |
| ExecutionManager.Manager.Prepare | internal/execution/manager.go:175-217 | steps 1 to 5 refuse exactly what `PlanFor` refuses, and what they let through passed every gate so far |
| ExecutionManager.Manager.Gate | internal/execution/manager.go:219-245 | the gate takes the execution through the protocol; it passes only with an approved record or if ungated, and its response tells how it ended |
| ExecutionManager.Manager.Launch | internal/execution/manager.go:247-270 | a created Job had a free name and is the one built from the plan's context; no other Job is touched |
| ExecutionManager.Manager.Start | internal/execution/manager.go:219-270 | gate, context and Job together: refused as the protocol says, or a Job built from the plan's context under a name that was free |
| ExecutionManager.Manager.Await | internal/execution/manager.go:272-299 | waits for the timeout of the call, or of the parameters, plus 30 seconds, and reports SUCCEEDED if and only if the account of that wait ends with the Job seen with a succeeded Pod |
| ExecutionManager.Manager.Execute | internal/execution/manager.go:164-300 | an execution refused early changes nothing; any other follows the protocol as the client of its plan, the response tells how it ended, and a started Job is built from the plan and awaited |

## Left out

- gRPC and HTTP serving, generated protobuf code, metrics, audit files and `main`: input and output only.
- `ListPending` (a stub) and the fixed progress messages of `ExecuteStream`.
- JSON, YAML, SHA-256, `resource.MustParse` and duration parsing: stored records are assumed to round-trip, the registry and the catalog are given parsed, the hash is a function `hash`.
- Case folding in `EqualFold`: a parameter `fold` that picks one representative of each case-folding orbit.
- Entries of the approvals ConfigMap written by others, and its deletion: runs start with the ConfigMap absent or empty and only the modelled calls write it. `store.go:105-107` and a nil map after foreign edits are not covered.
- The two clock readings of `Create` (`store.go:69` and `store.go:71`) are one.
- `BuildContext`'s decoding of parameters is a parameter `decode`; the copying of script, source, hash and image into the context is modelled. Timeouts are not negative.
- `buildEnvFrom`, resources, labels, annotations, security contexts, scheduling, image pull policy and pull secret: copied field by field, they would add only easy members. In image resolution the default chain is one default image.
- Pod lookup, logs, duration and exit code in `collectResult`; only `Succeeded` is modelled.
- Invalid UTF-8: scripts are sequences of Unicode scalars.
- The real Kubernetes client: the API server is versioned get, update and create with faults, a watch is a stream of events, finitely many per instant.
- The classes of `ApprovalStore` and `ExecutionManager` run one caller at a time; interleavings are in the step protocol, to which each method is tied step by step. The request a method holds is a value that is reassigned, not a shared pointer.
- ApprovalStore.SoloServes: does not cover executions, because they go on to create a Job; `ApprovalRefinement.Refinement` covers their part in the store.
- ApprovalFinality.DeniedNeverRuns: goes one way, because a blind request and its approval need not be followed by a Job.
- ApprovalTwins.ExpiryWriteBisimilar: is about runs without overlap on a key; with overlap an expiry write can overwrite a decision like any other write, which `ApprovalFinality.FinalUnlessStale` covers.
