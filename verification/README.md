# Verified model of the device-management server and agent

The system manages fleets of machines: a server keeps jobs, policies, alerts and remote shells
in a database and in memory, an agent on each device executes signed jobs and reports what
happens there, and two consoles show it to people. This project models the parts of it that
carry state machines, parsers and refinements, and proves what they promise over all inputs and
all runs.

`dafny verify dfyconfig.toml` checks everything.

| modules | what they model |
|---|---|
| `Common`, `Numerals`, `Sql` | options, sequences, decimal and hexadecimal numerals, three-valued SQL conditions |
| `Json`, `Utf8`, `Payloads`, `PayloadTexts`, `Signing` | job payloads as tagged JSON, what each document means, their signing bytes, signatures taken as ideal |
| `JobServer`, `JobRuns`, `JobSplits` | the job table, one channel per device, every run of the handlers, and dispatches taken as two actions |
| `AgentJobs`, `AgentRuns`, `AgentLines`, `AgentKills`, `AgentFates`, `AgentVerdicts`, `AgentProgress` | concurrent job tasks as interleaved steps, the shared channel and the kill registry |
| `Network` | server and agents joined by a network that may drop, reorder, replay or alter messages |
| `Protocol` | server and agents joined by channels that lose messages but repeat and invent none |
| `Sse`, `SseAgreement`, `SseLines` | the two readers of the shell event stream |
| `ShellRelay`, `ShellStreams`, `ShellAgent` | remote shells: the server's relay, what subscribers see, the agent's session thread |
| `ShellWords`, `Commands` | the POSIX shell's tokens, and the command lines the agent builds |
| `Snapshots`, `Walk`, `Records`, `HexAddr`, `Connections` | the user-space monitors |
| `Throttle` | the login throttle |
| `Policies`, `PolicyRuns`, `PolicyLaws`, `Migration` | policy assignment, groups, cascades, the reshape of the assignment table |
| `Alerts`, `AlertRuns`, `AlertLaws` | alert rules, events and the check made on each telemetry report |

State the source changes in place is a class whose methods are proved equal to a step function on
an immutable copy of the state (`AfterCreate`, `AfterAssign`, `AfterCheck`, ...); runs are sequences
of those steps, and the lemmas about runs are about the same step functions.

Assumptions a reader should know:

- In `JobRuns` each server handler is one atomic step. In the code a dispatch and its status update are
  two actions: `JobSplits` takes them apart and says when statuses still climb. Opening a shell is
  modelled as the two steps it really is.
- Generated UUIDs are fresh. A job id is given to an agent once, where a theorem says so
  (`OnlyTask`, `DistinctIds`); `AgentKills.DuplicateIdKillsFirstJob` shows why.
- Ed25519 is ideal: nobody makes a signature over bytes the server did not sign.
- Text is a sequence of Unicode scalar values; bytes appear where the code works on bytes.
- Database calls succeed unless a constraint of the schema refuses them.

Where the code and its own words disagree, the model follows the code: the web console's note says
a remote shell is a piped `/bin/sh` without a PTY
(`dashboard/src/app/(console)/shell/[deviceId]/page.tsx:134`) while the agent opens a real PTY
(`crates/osfm-edm-agent/src/shell/session.rs:66-71`), and the Windows file watcher's comment promises
a write event for a new file (`crates/osfm-edm-agent/src/system_monitor/windows.rs:153`) while the code
emits a create event.

Properties that the code does not have, with their exact conditions:

- For single-line output that does not start with white space the two consoles show the same text if and
  only if nothing visible follows the first close (`SseAgreement.ReadersAgree`); the relay never sends
  anything after a close, so on its streams they then always agree (`ShellStreams.ConsolesAgreeOnShells`).
  `SseAgreement.LateOutputDisagrees` is a stream on which they do not.
- An output that starts with white space is shown without it by both (`SseLines.LeadingWhiteIsLost`), except
  that only the console shows a byte order mark and only the page a next-line control
  (`SseLines.ReadersDifferInTwoCharacters`).
- One output, of any number of lines, is shown alike if and only if it has one line
  (`SseLines.SameTextIffOneLine`, where both readers trim the same leading white space): the console drops
  the line breaks between its `data:` lines.
- After an alert check, an enabled rule that triggers has exactly one open event if and only if every
  enabled rule has its columns or the event was already there (`AlertRuns.TriggeredHasExactlyOne`);
  `AlertRuns.OldRuleSilencesAll` is the failing input.
- A fanotify batch closes every valid descriptor if and only if none lies beyond the event the
  receiver refused (`Records.AllClosedUnlessStopped`); `Records.StoppedLeavesDescriptorOpen` leaves one open.
- A revocation reaches a job, whose kill is then ready when its select runs, if and only if the job is
  registered when it arrives and runs in a child process (`AgentFates.RevocationReaches`).
  `AgentFates.RevokedJobRunsToEnd` loses a revocation before the job is registered,
  `AgentFates.RevokedInventoryRunsToEnd` one of a job the agent works on by itself.
- A job that is over leaves no registry entry, except if and only if it failed to spawn and was not
  revoked after it had registered (`AgentFates.EntryOutlivesJob`); `AgentFates.FailedSpawnLeavesEntry`
  leaves one.
- An agent executes a job of another device if and only if the signature it accepts was not sent to its own
  device, because the signed bytes name no device (`Network.OwnJobIffSentToIt`);
  `Network.MisdeliveryIsExecuted` executes one.
- An install job runs the same command whatever version it asks for (`Commands.PackagesRun`).
- With sending and marking as two actions, a job's status never falls if and only if no cancellation or
  completion of it precedes a mark of it (`JobSplits.SplitStatusClimbsIff`);
  `JobSplits.LateMarkFallsBack` falls from completed to dispatched.
- A cancelled job stays cancelled if and only if no completion of it is reported
  (`JobRuns.CancelledUnlessCompleted`); `JobRuns.CancelledEndsFailed` ends failed.

## Model

| member | source | states |
|---|---|---|
| `Json.ParseEscaped` | crates/osfm-edm-common/src/jobs.rs:68-74 | a string escaped as in section 7 of RFC 8259 reads back verbatim, whatever it contains and whatever follows |
| `Json.ParsePrint` | crates/osfm-edm-common/src/jobs.rs:68-74 | every printed value parses back to itself in any position inside a document |
| `Json.ParsePrintedText` | crates/osfm-edm-common/src/jobs.rs:68-74 | every printed document parses back, with nothing left over |
| `Json.EscapeTexts` | crates/osfm-edm-common/src/jobs.rs:68-74 | the escapes written for each of the control and quote characters; every other character stands for itself |
| `Json.UnicodeEscapes` | crates/osfm-edm-common/src/jobs.rs:68-74 | four hexadecimal digits name their scalar value; half a surrogate pair is refused |
| `Utf8.EncodeInjective` | crates/osfm-edm-common/src/jobs.rs:68-74 | two strings with the same UTF-8 bytes are equal (section 3 of RFC 3629) |
| `Utf8.EncodedForm` | crates/osfm-edm-common/src/jobs.rs:68-74 | length, lead byte, continuation bytes and bits of every encoded scalar value (section 3 of RFC 3629) |
| `Payloads.FromToJson` | crates/osfm-edm-common/src/jobs.rs:6-34 | deserialising a serialised payload gives it back, for all seven kinds |
| `Payloads.FromArrayForm` | crates/osfm-edm-common/src/jobs.rs:6-34 | a payload is also read from its array form, the tag followed by its fields by position |
| `Payloads.PayloadRoundTrip` | crates/osfm-edm-common/src/jobs.rs:6-34 | the same through the printed text |
| `Payloads.PayloadIgnoresKeyOrder` | crates/osfm-edm-common/src/jobs.rs:6-34 | a stored object means the same job whatever the order of its keys |
| `Payloads.SigningBytesInjective` | crates/osfm-edm-common/src/jobs.rs:58-74 | two (id, payload) pairs with the same signing bytes are the same pair |
| `Payloads.SigningBytesStable` | crates/osfm-edm-common/src/jobs.rs:64-74 | serialising, parsing and serialising again leaves the signing bytes as they were |
| `PayloadTexts.PayloadMeans` | crates/osfm-edm-common/src/jobs.rs:6-56 | a JSON value is read as a job if and only if it is an object with the job's tag and fields under their names, each once, in any order and among others, with absent and null options alike, or the array of the tag and the fields |
| `PayloadTexts.RefusedMeans` | crates/osfm-edm-server/src/api/jobs.rs:88-92 | every other value is refused |
| `PayloadTexts.ScriptDocument` | crates/osfm-edm-common/src/jobs.rs:9-12 | a script document of each of the four shells |
| `PayloadTexts.InstallDocument` | crates/osfm-edm-common/src/jobs.rs:13-17 | an install document of each of the six managers, with its version absent, null or given |
| `PayloadTexts.UninstallDocument` | crates/osfm-edm-common/src/jobs.rs:18-21 | an uninstall document of each manager |
| `PayloadTexts.PushDocument` | crates/osfm-edm-common/src/jobs.rs:22-26 | a push document with its permissions absent, null or given |
| `PayloadTexts.OtherDocuments` | crates/osfm-edm-common/src/jobs.rs:27-33 | reboot, inventory and patch documents |
| `PayloadTexts.WrittenScript` | crates/osfm-edm-common/src/jobs.rs:9-12 | the tag, names and order of a script's fields as they are signed |
| `PayloadTexts.WrittenPackages` | crates/osfm-edm-common/src/jobs.rs:13-21 | the same for install and uninstall jobs; a missing version is written as null |
| `PayloadTexts.WrittenFile` | crates/osfm-edm-common/src/jobs.rs:22-26 | the same for push jobs |
| `PayloadTexts.WrittenOthers` | crates/osfm-edm-common/src/jobs.rs:27-33 | the same for the other three kinds |
| `PayloadTexts.SignedBytes` | crates/osfm-edm-common/src/jobs.rs:60-74 | the signed bytes are the domain text and a NUL, the raw id, and the UTF-8 of the fields joined without white space |
| `Signing.SignatureBindsJob` | crates/osfm-edm-agent/src/main.rs:189-222 | a signature made for one job verifies for that id and payload and for no other |
| `Signing.VerdictMeans` | crates/osfm-edm-agent/src/main.rs:189-222 | accepted exactly with the server's key and that job's signature; otherwise the verdict names the first of key and signature that is missing |
| `JobServer.Server.SendToAgent` | crates/osfm-edm-server/src/state.rs:100-106 | a message reaches the channel exactly when the device has a live handle |
| `JobServer.Server.CreateJob` | crates/osfm-edm-server/src/api/jobs.rs:57-119 | insert before parse: an unknown device changes nothing, a document that is one for no job leaves a pending row, otherwise dispatch over a live handle or queue |
| `JobServer.Server.CancelJob` | crates/osfm-edm-server/src/api/jobs.rs:198-234 | finished and cancelled jobs are refused; any other is marked and its revocation sent over a live handle |
| `JobServer.Server.DispatchPendingJobs` | crates/osfm-edm-server/src/services/job_queue.rs:13-58 | the loop sends and marks every due job of the device, in creation order, and skips what does not parse |
| `JobServer.Server.Connect` | crates/osfm-edm-server/src/ws/agent_hub.rs:98-120 | a known device gets a live handle, an unknown one none |
| `JobRuns.StatusClimbs` | crates/osfm-edm-server/src/api/jobs.rs:211-229 | no step loses or rewrites a row, and a status only climbs pending, dispatched, cancelled, completed or failed |
| `JobRuns.RunClimbs` | crates/osfm-edm-server/src/api/jobs.rs:76-113 | the same over every run |
| `JobRuns.InvPreserved` | crates/osfm-edm-server/src/services/job_queue.rs:20-57 | every step keeps: distinct ids, each channel message made from its row, at most one dispatch per job, none after its revocation |
| `JobRuns.ChannelSafety` | crates/osfm-edm-server/src/services/job_queue.rs:20-57 | in every reachable state each job was put on a channel at most once and never after its revocation |
| `JobRuns.NeverDispatchedAfterCancel` | crates/osfm-edm-server/src/api/jobs.rs:211-229 | once a row is cancelled no later run dispatches it |
| `JobRuns.DisconnectedGetsNothing` | crates/osfm-edm-server/src/ws/agent_hub.rs:199-206 | once a device's handle is gone or dead nothing is put on its channel until it connects again, over every run |
| `JobRuns.ConnectionEnds` | crates/osfm-edm-server/src/ws/agent_hub.rs:199-206 | a connection ended by either side leaves no live handle and no row changed |
| `JobRuns.OverRowStays` | crates/osfm-edm-server/src/api/jobs.rs:211-229 | only a completion changes a row that is cancelled or finished |
| `JobRuns.CancelledUnlessCompleted` | crates/osfm-edm-server/src/ws/agent_hub.rs:304-319 | over every run a cancelled row is still cancelled if and only if no completion of its job was reported; once one is, it is finished |
| `JobRuns.CancelledEndsFailed` | crates/osfm-edm-server/src/ws/agent_hub.rs:304-319 | the failing input: connect, create, cancel, and the agent's report of exit code -4 leaves the row failed |
| `JobRuns.CompletionOverwrites` | crates/osfm-edm-server/src/ws/agent_hub.rs:304-319 | a completion sets exactly that job's row to completed for code 0, failed for any other, with the code |
| `JobRuns.DrainEmptiesQueue` | crates/osfm-edm-server/src/services/job_queue.rs:20-57 | a drain over a live handle enqueues in creation order, marks exactly the due rows dispatched and leaves no parseable pending row; over a dead one it changes nothing |
| `JobRuns.ReconnectEmptiesQueue` | crates/osfm-edm-server/src/ws/agent_hub.rs:98-120 | a known device that connects and is drained is sent every job that waits for it, in creation order |
| `JobRuns.CancelMarksAndRevokes` | crates/osfm-edm-server/src/api/jobs.rs:211-229 | cancelling an unfinished job changes only its status and adds its revocation; otherwise nothing changes |
| `JobRuns.CreateQueuesOrDispatches` | crates/osfm-edm-server/src/api/jobs.rs:76-113 | one row is appended; it is dispatched at once exactly when it parses and the device is live, else it stays pending |
| `JobRuns.CreateMeans` | crates/osfm-edm-server/src/api/jobs.rs:76-113 | the document alone decides: one for a job is dispatched, signed, as that job over a live handle and waits over a dead one; any other stays pending |
| `JobSplits.SplitStatusClimbsIff` | crates/osfm-edm-server/src/services/job_queue.rs:38-56 | with sending and marking as two actions and anything between them, the status of a pending job never falls if and only if no cancellation or completion of it comes before a mark of it |
| `JobSplits.LateMarkFallsBack` | crates/osfm-edm-server/src/api/jobs.rs:94-108 | the failing input: a completion between send and mark makes the status fall from completed to dispatched |
| `JobSplits.SendAndMarkIsDrain` | crates/osfm-edm-server/src/services/job_queue.rs:38-56 | with nothing between them the two actions are the drain of the one due job |
| `AgentJobs.Registry.Register` | crates/osfm-edm-agent/src/jobs/registry.rs:10-12 | the id maps to the new sender; a sender it replaces is dropped, which wakes its receiver |
| `AgentJobs.Registry.Cancel` | crates/osfm-edm-agent/src/jobs/registry.rs:14-18 | removes the entry and wakes its receiver; true exactly when there was one and it still listened |
| `AgentJobs.Registry.Remove` | crates/osfm-edm-agent/src/jobs/registry.rs:20-22 | removes the entry and drops its sender |
| `AgentRuns.RunOk` | crates/osfm-edm-agent/src/jobs/executor.rs:266-352 | every interleaving keeps: each task has sent log lines only until its verdict, then exactly the verdict's messages |
| `AgentRuns.JobMessagesInOrder` | crates/osfm-edm-agent/src/jobs/executor.rs:13-159 | in every interleaving a job's messages are its log lines and then, exactly when its task is over, one completion: -4 if killed, -3 if rejected, -2 if timed out, the child's own code, 0 for an inventory or a written file, -1 otherwise; all payload kinds |
| `AgentRuns.OverIsSilent` | crates/osfm-edm-agent/src/jobs/executor.rs:347-352 | after its task is over nothing more is sent for it, however the run goes on |
| `AgentVerdicts.WholeTrace` | crates/osfm-edm-agent/src/jobs/executor.rs:77-159 | in every interleaving, word for word, everything sent for a rejected job, a failed spawn, an inventory and a file written in process; and which payloads can end how |
| `AgentProgress.CanFinish` | crates/osfm-edm-agent/src/jobs/executor.rs:266-352 | from any state a task can be brought to its end by steps of its own, keeping its cause |
| `AgentProgress.RunningCanEnd` | crates/osfm-edm-agent/src/jobs/executor.rs:321-352 | a running child can exit with any code or none, fail to be waited for or time out, and its job ends so |
| `AgentLines.LinesDeliveredInOrder` | crates/osfm-edm-agent/src/jobs/executor.rs:286-319 | the lines logged on a stream are exactly the lines its reader read, in order, then those of the verdict: none lost, repeated or moved |
| `AgentKills.RegistryStep` | crates/osfm-edm-agent/src/jobs/registry.rs:8-22 | every step keeps: entries name started tasks of that id, and a listed or running task is registered or already woken |
| `AgentKills.KilledOnlyIfRevoked` | crates/osfm-edm-agent/src/jobs/executor.rs:321-344 | a job whose id no other task has ends with the kill code only if it was revoked |
| `AgentKills.RevocationReachesRunningJob` | crates/osfm-edm-agent/src/main.rs:285-291 | in every reachable state a revocation makes the kill arm of the running job ready |
| `AgentKills.DuplicateIdKillsFirstJob` | crates/osfm-edm-agent/src/jobs/registry.rs:10-12 | registering an id again makes the first job killable although nobody revoked it |
| `AgentFates.RevocationReaches` | crates/osfm-edm-agent/src/main.rs:285-291 | the first and only revocation of a job before its select ends reaches it if and only if the job is registered at that moment and runs in a child process: its kill arm is ready whenever its select runs, and otherwise it is never ready and the job is never killed; registered is every job but one just accepted |
| `AgentFates.RevokedJobRunsToEnd` | crates/osfm-edm-agent/src/main.rs:279-291 | the failing input: revoked between acceptance and registration, the job runs to its end and reports success |
| `AgentFates.RevokedInventoryRunsToEnd` | crates/osfm-edm-agent/src/jobs/executor.rs:77-90 | the second failing input: a registered inventory job is revoked, runs to its end and reports success |
| `AgentFates.EntryOutlivesJob` | crates/osfm-edm-agent/src/jobs/executor.rs:266-345 | a job that is over, and whose id no other task has, still has a registry entry if and only if it failed to spawn and no revocation of it came after it had registered |
| `AgentFates.FailedSpawnLeavesEntry` | crates/osfm-edm-agent/src/jobs/executor.rs:266-283 | the failing input: a program that cannot be started |
| `Network.AcceptedWasInserted` | crates/osfm-edm-agent/src/main.rs:189-222 | whatever signature the network can attach, verification passes only for the id and payload of an inserted row |
| `Network.SignedPreserved` | crates/osfm-edm-server/src/services/job_queue.rs:28-48 | whatever request or agent message the server handles, every dispatch in its log is signed for an inserted row |
| `Network.InvPreserved` | crates/osfm-edm-agent/src/main.rs:252-284 | every server, agent and network step, forged, repeated or altered completions included, keeps: each accepted task is backed by an inserted row |
| `Network.ExecutedJobsWereCreated` | crates/osfm-edm-server/src/api/jobs.rs:76-103 | for every network behaviour in both directions each (id, payload) an agent executes is that of a row `create_job` inserted |
| `Network.OwnJobIffSentToIt` | crates/osfm-edm-common/src/jobs.rs:58-74 | with distinct row ids, a job an agent accepts belongs to its own device if and only if the signature was sent to that device |
| `Network.DirectRunsOwnJobs` | crates/osfm-edm-agent/src/main.rs:252-284 | over every run whose deliveries reach the device their signature was sent to, an agent accepts only its own device's jobs |
| `Network.MisdeliveryIsExecuted` | crates/osfm-edm-agent/src/main.rs:198-222 | the failing run: one device's dispatch delivered to another agent with the server's key is accepted and entered there |
| `Network.NoKeyNoExecution` | crates/osfm-edm-agent/src/main.rs:198-203 | without the server's key, or without a signer, no job is accepted |
| `Network.HonestDeliveryAccepted` | crates/osfm-edm-server/src/state.rs:89-97 | what the server signed and sent verifies when it arrives unaltered |
| `Network.StatusTellsOutcome` | crates/osfm-edm-server/src/ws/agent_hub.rs:304-319 | the row ends completed for a zero exit, an inventory or a written file, and failed for every other cause |
| `Protocol.CompletesOnce` | crates/osfm-edm-agent/src/jobs/executor.rs:266-352 | an agent with distinct job ids never sends two completions of one job |
| `Protocol.ReportAllowed` | crates/osfm-edm-server/src/ws/agent_hub.rs:304-319 | over channels that lose but do not repeat, what an agent reports was dispatched to it and not reported before |
| `Protocol.InvKept` | crates/osfm-edm-server/src/ws/agent_hub.rs:304-319 | every step of server, channels and agents keeps: tasks come from dispatches to their device, ids are distinct, finished rows hold what was reported |
| `Protocol.JobsOnlyClimb` | crates/osfm-edm-server/src/api/jobs.rs:76-113 | in every run of the whole system, with nothing supposed about what agents report, statuses only climb and each job is dispatched at most once, never after its revocation |
| `Protocol.FinishedRowTellsItsTask` | crates/osfm-edm-server/src/ws/agent_hub.rs:304-319 | in every run a finished row has the exit code, as a number, of how the job's task on its own device ended, and is completed exactly for a zero exit, an inventory or a written file |
| `Protocol.ReportIsRecorded` | crates/osfm-edm-server/src/ws/agent_hub.rs:304-319 | a report that gets through sets the row of that job, of the agent's own device, to its code and status |
| `Sse.ParseAppend` | crates/osfm-edm-console/src/api.rs:127-160 | parsing the rest together with later text continues the parse of the whole, for every cut |
| `Sse.RestHasNoBlankLine` | crates/osfm-edm-console/src/api.rs:134-136 | what stays in the buffer never holds a blank line |
| `Sse.ReadBlock` | crates/osfm-edm-console/src/api.rs:137-145 | the loop over a block's lines finds the last event name and the joined data |
| `Sse.StreamSse` | crates/osfm-edm-console/src/api.rs:125-160 | for every chunking the texts sent and the stopping point are those of one parse of the whole stream; the inner loop ends |
| `Sse.AppendBlocks` | dashboard/src/app/(console)/shell/[deviceId]/page.tsx:74-86 | the shown text grows by the texts of the blocks, in order |
| `Sse.SplitBlocksAppend` | dashboard/src/app/(console)/shell/[deviceId]/page.tsx:72-73 | splitting the kept piece together with later text continues the split of the whole |
| `Sse.LastPieceUncut` | dashboard/src/app/(console)/shell/[deviceId]/page.tsx:72-73 | the piece kept back holds no blank line |
| `Sse.WebStream` | dashboard/src/app/(console)/shell/[deviceId]/page.tsx:67-88 | for every chunking the page shows the text of one split of the whole stream |
| `SseAgreement.HandleBlock` | crates/osfm-edm-console/src/api.rs:137-153 | what the console makes of one output, close or keep-alive block with a plain payload |
| `SseAgreement.WebBlock` | dashboard/src/app/(console)/shell/[deviceId]/page.tsx:74-86 | what the page makes of the same block |
| `SseAgreement.ConsoleText` | crates/osfm-edm-console/src/api.rs:134-153 | on every stream of plain blocks the console shows the payloads in order through the first close |
| `SseAgreement.PageText` | dashboard/src/app/(console)/shell/[deviceId]/page.tsx:64-88 | the page shows those and everything after the close as well |
| `SseAgreement.ReadersAgree` | dashboard/src/app/(console)/shell/[deviceId]/page.tsx:64-88 | for any two chunkings of plain blocks both show the same text if and only if nothing visible follows the first close |
| `SseAgreement.LateOutputDisagrees` | crates/osfm-edm-console/src/api.rs:146-149 | the failing input: one output after a close, which only the page shows |
| `SseLines.ConsoleLines` | crates/osfm-edm-console/src/api.rs:137-153 | an output of any number of lines is shown by the console as its lines, trimmed at the start, without breaks |
| `SseLines.PageLines` | dashboard/src/app/(console)/shell/[deviceId]/page.tsx:74-83 | the page shows the same lines with a break between each two |
| `SseLines.SameTextIffOneLine` | dashboard/src/app/(console)/shell/[deviceId]/page.tsx:74-83 | where both trim the same, an output shows the same text in both if and only if it has one line |
| `SseLines.LeadingWhiteIsLost` | crates/osfm-edm-console/src/api.rs:142-145 | an output that starts with white space is shown without it |
| `SseLines.ReadersDifferInTwoCharacters` | dashboard/src/app/(console)/shell/[deviceId]/page.tsx:74-83 | at the start of an output the console shows a byte order mark and drops a next-line control, the page the opposite |
| `SseLines.TwoNames` | crates/osfm-edm-console/src/api.rs:137-153 | of two event names in a block the console takes the last, the page the first |
| `SseLines.UnnamedBlock` | dashboard/src/app/(console)/shell/[deviceId]/page.tsx:74-86 | a block without an event name is shown by the console alone |
| `SseLines.ReturnsAreDropped` | crates/osfm-edm-console/src/api.rs:137-145 | a carriage return before a line break is no part of the line |
| `SseLines.NameEndsAtTerminator` | dashboard/src/app/(console)/shell/[deviceId]/page.tsx:74-76 | the page's event name ends at one of the four line terminators of JavaScript and nowhere else |
| `ShellRelay.ShellServer.FinishOpening` | crates/osfm-edm-server/src/api/shell.rs:54-69 | an unreachable agent takes the channel away again; a reached one binds the session to its user |
| `ShellRelay.ShellServer.OnShellOutput` | crates/osfm-edm-server/src/ws/agent_hub.rs:352-368 | output is broadcast exactly when the session has a channel |
| `ShellRelay.ShellServer.OnShellClosed` | crates/osfm-edm-server/src/ws/agent_hub.rs:370-391 | the close is broadcast if there is a channel; channel and session go |
| `ShellRelay.ShellServer.CloseShellFor` | crates/osfm-edm-server/src/api/shell.rs:155-179 | an unbound session is not found, anyone but its owner or an admin is forbidden, and the session goes exactly when the agent was told; the channel stays |
| `ShellRelay.StepOrdered` | crates/osfm-edm-server/src/ws/agent_hub.rs:352-391 | every step keeps: a session's events are outputs then at most one close, and a session with a channel has none yet |
| `ShellRelay.SessionOrder` | crates/osfm-edm-server/src/ws/agent_hub.rs:352-391 | for every order of requests and agent messages a session's events are outputs, at most one close, then nothing |
| `ShellRelay.RelayCutsAtClose` | crates/osfm-edm-server/src/ws/agent_hub.rs:352-391 | the events of an open session are exactly what agents report for it through the first close, even if output arrives later |
| `ShellRelay.CloseMeans` | crates/osfm-edm-server/src/api/shell.rs:155-179 | a request takes a bound session away if and only if the agent was reached and the user is its owner or an admin; all else stays |
| `ShellRelay.SessionBoundUntilEnded` | crates/osfm-edm-server/src/api/shell.rs:94-116 | over every run a bound session keeps its owner and device until its owner or an admin closes it or its agent reports its end, and exactly until then |
| `ShellRelay.OpenBinds` | crates/osfm-edm-server/src/api/shell.rs:40-84 | opening binds the session to its user and device if the agent was reached, and leaves neither session nor channel if not |
| `ShellStreams.ConsolesAgreeOnShells` | crates/osfm-edm-server/src/api/shell.rs:188-226 | for every run of the relay with single-line output that does not start with white space, every subscriber however late or slow, and any two chunkings, both consoles show the outputs in order and then the exit code |
| `ShellAgent.ShellManager.OpenSession` | crates/osfm-edm-agent/src/shell/session.rs:30-40 | an open session is left alone; a new one gets a thread of its own |
| `ShellAgent.ShellManager.SendInput` | crates/osfm-edm-agent/src/shell/session.rs:42-46 | input is appended to that session's thread and to no other |
| `ShellAgent.ShellManager.CloseSession` | crates/osfm-edm-agent/src/shell/session.rs:48-52 | the session leaves the table and its thread is told to stop |
| `ShellAgent.InputsReachTheShell` | crates/osfm-edm-agent/src/shell/session.rs:30-52 | over every run a session's thread is given that session's inputs, in order, until it is closed, and is stopped exactly if it is |
| `ShellAgent.KilledIsOver` | crates/osfm-edm-agent/src/shell/session.rs:48-52 | a stopped thread is left alone even if its session id is opened again |
| `ShellAgent.RunServes` | crates/osfm-edm-agent/src/shell/session.rs:137-157 | a thread stepped turn by turn has at every moment taken its queue from the front, in order, whatever is requested meanwhile |
| `ShellAgent.RunPty` | crates/osfm-edm-agent/src/shell/session.rs:54-158 | on every path a thread that returns reported the end exactly once, with the right code; it returns exactly on a failed start or the first turn that sees a kill, a closed input or an exit; it typed all input before that |
| `ShellAgent.TypedIsPrefixOfInputs` | crates/osfm-edm-agent/src/shell/session.rs:137-157 | for every interleaving of requests with the thread's own steps what is typed into a shell is a prefix of its session's inputs in order, and all of them once its input is closed; it is killed only if its session was closed, and stopped exactly at the first turn that ends |
| `ShellAgent.ClosedSessionStops` | crates/osfm-edm-agent/src/shell/session.rs:137-158 | the thread of a closed session stops within three steps of its own, having typed at most one more input |
| `ShellWords.LexWord` | crates/osfm-edm-agent/src/jobs/executor.rs:170-190 | a blank-delimited run of ordinary characters is one word (section 2.3 of the POSIX.1-2017 Shell Command Language) |
| `Commands.QuoteReadsBack` | crates/osfm-edm-agent/src/jobs/executor.rs:163-165 | a quoted value reads back verbatim inside one word, whatever it contains |
| `Commands.QuotedWord` | crates/osfm-edm-agent/src/jobs/executor.rs:163-165 | a quoted value between blanks is exactly one word |
| `Commands.PushFileReadsBack` | crates/osfm-edm-agent/src/jobs/executor.rs:54-61 | for all strings the push-file line tokenises to one fixed list with content, destination and permissions verbatim |
| `Commands.SanitizeAllowsOnly` | crates/osfm-edm-agent/src/jobs/executor.rs:230-240 | the result is non-empty and of allowed characters only; a name is unchanged exactly when it was so already |
| `Commands.PackageCommandReadsBack` | crates/osfm-edm-agent/src/jobs/executor.rs:170-190 | install and remove lines tokenise to a fixed shape with the package as one word |
| `Commands.PatchCommandReadsBack` | crates/osfm-edm-agent/src/jobs/executor.rs:205-226 | a patch line tokenises to its fixed words and one word per id, in order |
| `Commands.RebootReadsBack` | crates/osfm-edm-agent/src/jobs/executor.rs:193-202 | the reboot line tokenises to three words, the delay in whole minutes |
| `Commands.ScriptRuns` | crates/osfm-edm-agent/src/jobs/executor.rs:22-32 | a script goes unchanged to the interpreter the job names |
| `Commands.PackagesRun` | crates/osfm-edm-agent/src/jobs/executor.rs:33-42 | for each manager run through bash the exact words of an install and of a removal, whatever the version |
| `Commands.WindowsManagersRun` | crates/osfm-edm-agent/src/jobs/executor.rs:184-188 | the line that `cmd` is given for the two Windows managers |
| `Commands.OthersRun` | crates/osfm-edm-agent/src/jobs/executor.rs:47-93 | the exact words for files, restarts and patches, and their limits; an inventory needs no process |
| `Snapshots.ProcessPoller.Tick` | crates/osfm-edm-agent/src/system_monitor/linux.rs:436-481 | for any set order the tick's events replay the old snapshot to the new, as many as the symmetric difference, starts first |
| `Snapshots.ProcessPoller.TickList` | crates/osfm-edm-agent/src/system_monitor/macos.rs:114-149 | the same for the list poller |
| `Snapshots.RunReplaysToLatest` | crates/osfm-edm-agent/src/system_monitor/linux.rs:436-481 | over every run all events replayed on the seed give the latest snapshot; starts only for absent pids, exits only for present ones |
| `Snapshots.TickIsDifference` | crates/osfm-edm-agent/src/system_monitor/linux.rs:455-479 | each pid that came or went is mentioned exactly once, and no other |
| `Snapshots.FilePoller.Tick` | crates/osfm-edm-agent/src/system_monitor/macos.rs:153-209 | events replay the old scan's keys to the new; create, write and delete appear once each exactly where a path is new, changed or gone |
| `Snapshots.FilesReplayToLatest` | crates/osfm-edm-agent/src/system_monitor/windows.rs:154-210 | over every run all file events replayed give the latest scan's keys |
| `Walk.Scan.WalkDir` | crates/osfm-edm-agent/src/system_monitor/macos.rs:211-253 | on any graph, cyclic or not, the walk ends, stays within 5000 entries, and below the cap holds the prior keys and every file within the depth limit outside skipped trees |
| `Walk.Scan.ScanRoots` | crates/osfm-edm-agent/src/system_monitor/windows.rs:154-168 | the same for the loop over the roots, overlapping ones included; without a skip list on Windows |
| `Walk.PollFiles` | crates/osfm-edm-agent/src/system_monitor/macos.rs:153-209 | one round reports exactly the difference to the last scan; below 5000 files the scan is exactly the files at most seven names under the roots, outside the five skipped names on macOS |
| `Records.ReadBatch` | crates/osfm-edm-agent/src/system_monitor/linux.rs:585-647 | the walk stays in bounds, ends, and sends and closes exactly what its records say until the receiver refuses one |
| `Records.WalkVisitsEachRecord` | crates/osfm-edm-agent/src/system_monitor/linux.rs:606-646 | a batch of well-formed records, padded or not, is visited record by record, once each, in order; a rest too short, or claiming to be, ends it |
| `Records.ReadWrittenMeta` | crates/osfm-edm-agent/src/system_monitor/linux.rs:574-583 | reading the laid-out metadata gives every field back |
| `Records.MetaMeans` | crates/osfm-edm-agent/src/system_monitor/linux.rs:574-583 | which bytes are the length, mask, descriptor and pid |
| `Records.EventMeans` | crates/osfm-edm-agent/src/system_monitor/linux.rs:614-637 | a write exactly when the mask has the bit of value 2, a read otherwise; the path of the descriptor if there is one |
| `Records.AllClosedUnlessStopped` | crates/osfm-edm-agent/src/system_monitor/linux.rs:614-643 | every valid descriptor is closed if and only if none lies beyond the refused event |
| `Records.StoppedLeavesDescriptorOpen` | crates/osfm-edm-agent/src/system_monitor/linux.rs:614-643 | the failing input: two descriptors and a receiver gone at the first event |
| `Records.ReadProcEvent` | crates/osfm-edm-agent/src/system_monitor/linux.rs:283-365 | the decoder stays in bounds and yields what the message says, or nothing |
| `Records.DecodeInvertsLayout` | crates/osfm-edm-agent/src/system_monitor/linux.rs:302-360 | it inverts the exec and exit layouts and ignores every other kind |
| `Records.ShortMessagesIgnored` | crates/osfm-edm-agent/src/system_monitor/linux.rs:302-360 | a message too short for its kind is ignored |
| `HexAddr.ReadGroups` | crates/osfm-edm-agent/src/system_monitor/linux.rs:759-770 | the loop over the four words builds the four pairs of groups |
| `HexAddr.ParseHexAddr` | crates/osfm-edm-agent/src/system_monitor/linux.rs:741-775 | the method computes the decoder's result on every text, malformed or not |
| `HexAddr.KernelTextRendered` | crates/osfm-edm-agent/src/system_monitor/linux.rs:741-775 | the kernel's text of every IPv4 or IPv6 address and port is rendered in network order |
| `HexAddr.RenderedText` | crates/osfm-edm-agent/src/system_monitor/linux.rs:741-775 | that rendering written out: dotted decimals, or eight groups of lower-case digits in brackets, and the port |
| `HexAddr.OtherTexts` | crates/osfm-edm-agent/src/system_monitor/linux.rs:741-775 | any other text is kept; in a text of an address's length what is no number in range counts as zero |
| `HexAddr.KeyInjective` | crates/osfm-edm-agent/src/system_monitor/linux.rs:673 | two connections with the same key are the same pair of addresses |
| `Connections.ConnectionPoller.ReadLines` | crates/osfm-edm-agent/src/system_monitor/linux.rs:665-678 | the map holds the established lines under their keys, the later of two winning |
| `Connections.ConnectionPoller.Tick` | crates/osfm-edm-agent/src/system_monitor/linux.rs:662-703 | one event for each current key that was not known, carrying that key's entry, and none else |
| `Connections.NewConnectionsReportedOnce` | crates/osfm-edm-agent/src/system_monitor/linux.rs:662-703 | a pair of addresses is reported once if it is established now and was not in the scan before, else not at all; no key hides another |
| `Connections.LastLineWins` | crates/osfm-edm-agent/src/system_monitor/linux.rs:665-678 | an established pair has the addresses and inode of the last line that names it |
| `Throttle.LoginThrottle.KeepRecent` | crates/osfm-edm-server/src/api/auth.rs:97 | the loop keeps exactly the attempts of the last five minutes, in order |
| `Throttle.LoginThrottle.RecordFailedAttempt` | crates/osfm-edm-server/src/api/auth.rs:90-103 | the pruned list and the answer for that lower-cased name; no other name changes |
| `Throttle.RunInv` | crates/osfm-edm-server/src/api/auth.rs:90-108 | over every run with non-decreasing times the list kept is what is left of the full history of admitted attempts |
| `Throttle.RejectedExactlyWhenFull` | crates/osfm-edm-server/src/api/auth.rs:90-103 | after any run an attempt is rejected exactly when five for that lower-cased name were admitted in the last 300000 ms since the last clear, that is, when the fifth-last is younger than that |
| `Throttle.AtMostFivePerWindow` | crates/osfm-edm-server/src/api/auth.rs:82-103 | no five-minute window without a clear holds more than five admitted attempts |
| `Throttle.HistoryDecides` | crates/osfm-edm-server/src/api/auth.rs:90-108 | two throttles that admitted the same attempts answer every continuation alike, whatever lists they keep |
| `Throttle.RejectionProlongsNothing` | crates/osfm-edm-server/src/api/auth.rs:97-100 | a rejected attempt changes no later decision, however the calls go on |
| `Throttle.ClearForgets` | crates/osfm-edm-server/src/api/auth.rs:106-108 | after a clear the name's later calls are answered as by a fresh throttle |
| `Throttle.OtherNamesUnaffected` | crates/osfm-edm-server/src/api/auth.rs:95-108 | calls for one name leave every other name's list and history alone |
| `Throttle.LockoutEnds` | crates/osfm-edm-server/src/api/auth.rs:97-103 | once the fifth-last admitted attempt is five minutes old the next is admitted |
| `Policies.PolicyServer.CreatePolicy` | crates/osfm-edm-server/src/api/policies.rs:68-89 | the new row starts enabled at version 1; nothing else changes |
| `Policies.PolicyServer.UpdatePolicy` | crates/osfm-edm-server/src/api/policies.rs:123-178 | only the given fields change, new rules raise the version, and the result is pushed |
| `Policies.PolicyServer.DeletePolicy` | crates/osfm-edm-server/src/api/policies.rs:181-201 | the policy and its assignments go |
| `Policies.PolicyServer.AssignPolicy` | crates/osfm-edm-server/src/api/policies.rs:204-240 | neither or both targets is refused, an existing row is kept, a dangling reference fails, else one row is added; a success is pushed |
| `Policies.PolicyServer.PushPolicyToAgents` | crates/osfm-edm-server/src/api/policies.rs:267-307 | for any order of the result every connected device of an enabled policy gets its definition once |
| `Policies.PolicyServer.PushPoliciesToDevice` | crates/osfm-edm-server/src/services/policy_engine.rs:11-51 | for any order of the query's answer, a connecting device with policies is sent their definitions in one message |
| `Policies.PolicyServer.CreateGroup` | crates/osfm-edm-server/src/api/groups.rs:59-79 | a name another group has is refused; otherwise the group exists with that name and nothing else changes |
| `Policies.PolicyServer.DeleteGroup` | crates/osfm-edm-server/src/api/groups.rs:111-130 | the group, its memberships and its assignments go |
| `Policies.PolicyServer.AddMember` | crates/osfm-edm-server/src/api/groups.rs:151-171 | adds the pair if both ends exist, keeps it if it is there |
| `PolicyRuns.InvKept` | crates/osfm-edm-server/src/api/policies.rs:212-258 | every handler and cascade keeps one target per row, all references and both partial unique indexes |
| `PolicyRuns.InvOverRuns` | migrations/015_reconcile_schema_and_security.sql:43-47 | the same over every run |
| `PolicyRuns.RowsDistinct` | migrations/015_reconcile_schema_and_security.sql:43-47 | no row occurs twice, so the table is the relation |
| `PolicyRuns.AssignAdds` | crates/osfm-edm-server/src/api/policies.rs:223-232 | an accepted assignment adds that (policy, target) pair and nothing else, once; a refused one changes nothing |
| `PolicyRuns.UnassignRemoves` | crates/osfm-edm-server/src/api/policies.rs:251-259 | exactly the named pairs are removed; a request without a target removes none |
| `PolicyRuns.UnassignUndoesAssign` | crates/osfm-edm-server/src/api/policies.rs:223-259 | unassigning a new assignment restores the tables |
| `PolicyRuns.DeleteGroupCascades` | crates/osfm-edm-server/src/api/groups.rs:118-125 | exactly the group's assignments and memberships go, all others stay |
| `PolicyRuns.AddMemberCovers` | crates/osfm-edm-server/src/api/groups.rs:151-171 | the new member is covered by exactly the group's policies in addition; no other cover changes |
| `PolicyRuns.RemoveMemberUncovers` | crates/osfm-edm-server/src/api/groups.rs:174-190 | a device stays covered exactly by a direct assignment or another membership |
| `PolicyRuns.PolicySide` | crates/osfm-edm-server/src/api/policies.rs:288-298 | the policy's query finds a device exactly when the policy is assigned to it or to a group containing it |
| `PolicyRuns.WhereMeans` | crates/osfm-edm-server/src/services/policy_engine.rs:21-27 | what the device's condition keeps, nulls included |
| `PolicyRuns.DeviceSide` | crates/osfm-edm-server/src/services/policy_engine.rs:21-27 | the device's query finds a policy exactly when it is enabled and covers the device |
| `PolicyRuns.QueriesAgree` | crates/osfm-edm-server/src/services/policy_engine.rs:21-27 | in every state a run reaches the two queries agree on every enabled policy and device |
| `PolicyRuns.DeviceSideCount` | crates/osfm-edm-server/src/services/policy_engine.rs:21-27 | a policy is repeated once per direct assignment plus once per assigned group containing the device |
| `PolicyRuns.PushReachesCovered` | crates/osfm-edm-server/src/api/policies.rs:300-306 | a push adds one message, the policy's id, name and rules, exactly for the connected devices that an enabled policy covers |
| `PolicyRuns.ConnectPushIsCover` | crates/osfm-edm-server/src/services/policy_engine.rs:29-51 | whatever order the database answers in, a connecting device is sent, in that order, the id, name and rules of exactly the policies covering it |
| `PolicyLaws.CreatePolicyMeans` | crates/osfm-edm-server/src/api/policies.rs:68-89 | a new policy is enabled, at version 1, as it was written, and covers no device yet |
| `PolicyLaws.UpdatePolicyMeans` | crates/osfm-edm-server/src/api/policies.rs:123-178 | each given field changes and no other; new rules alone raise the version, by one |
| `PolicyLaws.VersionCountsRules` | crates/osfm-edm-server/src/api/policies.rs:155 | over every run the version of a policy has risen by the number of its changes of rules, and its rules are those of the last |
| `PolicyLaws.DeletePolicyCascades` | crates/osfm-edm-server/src/api/policies.rs:181-201 | exactly the policy and its assignments go |
| `PolicyLaws.DeleteDeviceCascades` | migrations/015_reconcile_schema_and_security.sql:31-34 | exactly the device, its memberships and its assignments go |
| `PolicyLaws.AssignAnswers` | crates/osfm-edm-server/src/api/policies.rs:212-232 | bad request exactly without one target; assigned exactly if the policy and the target exist |
| `PolicyLaws.CreateGroupMeans` | crates/osfm-edm-server/src/api/groups.rs:66-73 | a group is made exactly if its name is free |
| `PolicyLaws.MembersMean` | crates/osfm-edm-server/src/api/groups.rs:151-190 | exactly that membership comes or goes |
| `Migration.UpdateDevices` | migrations/015_reconcile_schema_and_security.sql:36 | device rows get their device, others are untouched; fails exactly if a device is missing |
| `Migration.UpdateGroups` | migrations/015_reconcile_schema_and_security.sql:37 | the same for groups |
| `Migration.CreateIndexes` | migrations/015_reconcile_schema_and_security.sql:43-47 | succeeds exactly when neither index has a duplicate |
| `Migration.Reshape` | migrations/015_reconcile_schema_and_security.sql:31-47 | on any table meeting the old checks the migration succeeds if and only if every target exists |
| `Migration.ReshapeKeepsMeaning` | migrations/015_reconcile_schema_and_security.sql:31-47 | the (policy, kind, target) relation and the row count are kept, and the result has one target per row and both indexes |
| `Migration.KeptSinceReshape` | crates/osfm-edm-server/src/api/policies.rs:212-258 | the new constraints hold after everything done since |
| `Alerts.UpdateColumns` | crates/osfm-edm-server/src/api/alerts.rs:192-264 | the given columns change and the condition is brought in step |
| `Alerts.AlertServer.UpdateRule` | crates/osfm-edm-server/src/api/alerts.rs:176-267 | exactly the rule with that id changes; refused if there is none |
| `Alerts.AlertServer.DeleteRule` | crates/osfm-edm-server/src/api/alerts.rs:270-290 | the rule and its events go |
| `Alerts.AlertServer.ResolveEvent` | crates/osfm-edm-server/src/api/alerts.rs:343-366 | an open event is resolved; refused exactly when there is none |
| `Alerts.AlertServer.Telemetry` | crates/osfm-edm-server/src/ws/agent_hub.rs:229-247 | the report becomes the latest row of a known device, then the rules are checked |
| `Alerts.AlertServer.CheckAlerts` | crates/osfm-edm-server/src/services/alert_engine.rs:9-129 | the loop inserts an event for each rule that triggers and has none open, in rule order |
| `AlertRuns.InvOverRuns` | crates/osfm-edm-server/src/services/alert_engine.rs:88-101 | every run keeps distinct event ids and no two open events of one rule and device |
| `AlertRuns.AtMostOneOpen` | crates/osfm-edm-server/src/services/alert_engine.rs:88-101 | in every reachable state a rule has at most one unresolved event for a device |
| `AlertRuns.AfterCheckOpens` | crates/osfm-edm-server/src/services/alert_engine.rs:56-128 | a check opens an event for exactly the enabled rules that trigger, on this device only, unless a rule fails to decode; then none |
| `AlertRuns.AfterCheckAppends` | crates/osfm-edm-server/src/services/alert_engine.rs:112-122 | old events stay as they were; new ones are unresolved, of this device, with a triggered rule's severity |
| `AlertRuns.TriggeredHasExactlyOne` | crates/osfm-edm-server/src/services/alert_engine.rs:9-128 | an enabled triggered rule has exactly one unresolved event after a check if and only if all enabled rules decode or it had one |
| `AlertRuns.OldRuleSilencesAll` | crates/osfm-edm-server/src/services/alert_engine.rs:22-27 | the failing input: one enabled rule older than the metric column keeps another from firing |
| `AlertRuns.MissingMetricsOpenNothing` | crates/osfm-edm-server/src/services/alert_engine.rs:56-74 | a rule whose inputs are missing from the latest row opens nothing |
| `AlertRuns.CheckIsIdempotent` | crates/osfm-edm-server/src/services/alert_engine.rs:88-101 | checking again on the same metrics changes nothing |
| `AlertRuns.RulesOverRuns` | crates/osfm-edm-server/src/api/alerts.rs:244-262 | rules made through the API always decode and their JSON condition equals their columns |
| `AlertRuns.TriggeredHasExactlyOneOverRuns` | crates/osfm-edm-server/src/services/alert_engine.rs:9-128 | from a database whose rules have their columns, after any run and a check every enabled triggered rule has exactly one unresolved event |
| `AlertRuns.ResolveCloses` | crates/osfm-edm-server/src/api/alerts.rs:350-356 | resolving an open event closes it |
| `AlertRuns.ResolvedNeverReopens` | crates/osfm-edm-server/src/api/alerts.rs:350-356 | an event resolved or deleted is never open again |
| `AlertLaws.CheckMeans` | crates/osfm-edm-server/src/services/alert_engine.rs:56-128 | for each of the ten operator names and three metrics: after a check of full rules, an enabled rule with an id of its own has an open event if and only if it had one or its inequality holds on the latest row, percentages compared without division |
| `AlertLaws.TelemetryMeans` | crates/osfm-edm-server/src/ws/agent_hub.rs:229-247 | a report of a known device is kept, and its rules are checked on it |
| `AlertLaws.UnknownDeviceKept` | crates/osfm-edm-server/src/ws/agent_hub.rs:231-243 | a report of an unknown device is not kept |
| `AlertLaws.OpenedSeverity` | crates/osfm-edm-server/src/services/alert_engine.rs:107-122 | an opened event has the severity of its rule |
| `AlertLaws.CreatedRuleMeans` | crates/osfm-edm-server/src/api/alerts.rs:102-134 | a new rule is checked as it was written, enabled and a warning unless the request says otherwise |
| `AlertLaws.UpdateMeans` | crates/osfm-edm-server/src/api/alerts.rs:193-264 | each given field changes and no other, in that rule alone; the condition follows the columns |
| `AlertLaws.DeleteRuleMeans` | migrations/007_alerts.sql:26 | exactly the rule and its events go |
| `AlertLaws.ResolveMeans` | crates/osfm-edm-server/src/api/alerts.rs:350-356 | exactly the events of that id are closed |
| `AlertLaws.DeleteDeviceMeans` | migrations/007_alerts.sql:27 | the events of a deleted device stay, without a device, and its telemetry goes |

## Left out

- Rendering, forms and all screens of both consoles other than the event-stream readers.
- Real cryptography, TLS, certificates, password hashing, TOTP, tokens and the admin check of each handler.
- HTTP routing, SQL execution, sockets, processes and PTYs: they appear as maps, sequences, channels and step parameters. Timestamps are kept only where they decide something.
- Two overlapping connections of one device: the handle map is modelled, its agreement with live sockets is not claimed.
- A monitor whose event receiver is dropped in the middle of a tick: the pollers then return, and nothing is claimed about that tick.
- Platform enforcers, compliance checks, inventory collection and `persist_inventory`.
- The macOS and Windows connection pollers, the kernel-event batching, reconnect back-off and other easy members.
- AgentRuns.JobMessagesInOrder: the outbound channel always accepts; a timeout may fire at any moment of a running job, so its length does not appear.
- JobServer.Server.CreateJob: payload numbers other than naturals are not representable in the JSON model, so a row holding one is not modelled; no payload field accepts one.
- Json.ParseEscaped: a pair of surrogate escapes read as one character is refused by the model's parser; the printer never writes one.
- Sse.StreamSse: chunks are sequences of characters, because each chunk is decoded on its own; a multi-byte character cut by a chunk boundary, and the tests on the HTTP response before the loop, are not modelled.
- SseAgreement.ReadersAgree: payloads are single-line and do not start with white space, because the console joins `data:` lines without a newline and trims them.
- ShellStreams.ConsolesAgreeOnShells: output is single-line and does not start with white space, as for `SseAgreement.ReadersAgree`; `SseLines` says what more lines do.
- ShellAgent.RunPty: the output reader thread is not stepped; its messages may come anywhere in the order, also after the close, and the relay's theorems hold for every order.
- Commands.WindowsManagersRun: the Windows managers go through `cmd`, whose tokens are not modelled; nor are the lines of an agent that runs on Windows itself.
- AgentVerdicts.WholeTrace: a stored key or a signature that does not decode counts as a bad signature; the code words those refusals by themselves.
- Walk.Scan.ScanRoots: a root is the list of its path's components, so spellings that differ only in separators are one root.
- Walk.Scan.WalkDir: a path is a list of names, so the lossy rendering of non-Unicode names to text, which could merge two paths, is not modelled.
- HexAddr.ParseHexAddr: lengths are counted in characters, which are bytes for the ASCII text of /proc.
- Connections.ConnectionPoller.Tick: the owning process is looked up from the inode, which the event carries instead.
- Throttle.RejectedExactlyWhenFull: lower-casing is any function on names.
- Alerts.AlertServer.CheckAlerts: metrics are reals, so rounding and NaN are not modelled; message texts, notifications and their channels are left out; of the telemetry history only the latest row is kept; event ids are drawn from a counter. Rules are visited in table order, where the query promises none; the order decides only the order and ids of the new events.
- Policies.PolicyServer.PushPoliciesToDevice: rule text is sent as stored, its decoding is left out.
