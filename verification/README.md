# Mirraura: a verified model

Dafny models of the parts of Mirraura whose guarantees hold only over whole runs, and of the
transformations that can be proved exactly. `dafny verify dfyconfig.toml` checks everything.

* **Quarantine custody** (`FileMove`, `Custody`, `CustodyInvariant`, `CustodyTheorems`, `Interceptor`).
  The interceptor daemon, the backend's table and an admin form one step system: capture, torn meta
  writes, submission, lost requests and replies, decisions, polling, release, crash at any step and
  restart. The daemon's procedures are methods that take these steps one at a time, with arbitrary
  steps of the others in between. `FileMove` refines the move to single system calls over inodes,
  hard links and symbolic links; its phases are the moves of the step system
  (`Interceptor.SnapshotsAbstract`).
* **Isolation flag** (`Monitor`), **audit log** (`AuditLog`: the chain, and concurrent appends),
  **login limiter** (`LoginLimiter`), **accounts and sessions** (`Accounts`), **debouncer**
  (`Stabilizer`), **snapshot poller** (`Poller`): state machines over any number of calls, with the
  source's objects as classes proved against them.
* **Scoring** (`Scoring`, `TrainingData`, `Replay`), **trace parsing** (`TraceParser`), **encoders**
  (`Encoders`): functions and loops with their inverses or independent definitions.

Hashing, password checking, scoring functions and the logistic function are parameters. Random draws
are nondeterministic choices. A call to Docker or the database is atomic, and one that fails changes
nothing. Confidences of the rule scorer are twentieths (6, 5, 4, 5; threshold 12).

## Where the code does less than its comments say

* The move loses the file when opening the destination for writing reaches the source itself, by a
  symbolic or a hard link, and the rename has failed (`FileMove.Loses` is the exact condition,
  `FileMove.LossyMoves` two inputs). A captured symbolic link moves as a link; the bytes it
  leads to never enter quarantine.
* Recovery does not find a file if a crash or a failed write came between the last system call of its
  capture and the end of its first meta, nor one whose meta was torn later (`CustodyTheorems.StrandedExactlyByLoss`).
* When the daemon dies or gives up waiting before the answer to a hold arrives, or does not complete the
  held meta, the row stays pending and no entry ever names it, though a resubmission inserts
  another: an admin who approves the orphan releases nothing
  (`CustodyTheorems.RowsAreNamedUnlessForgotten`, `CustodyTheorems.OrphanedForGood`,
  `CustodyTheorems.UnnamedReleasesNothing`).
* The flag of the monitor stays wrong for good after a failed startup inspect of a detached
  container (`Monitoring.WrongStartStays`).
* The audit chain does not notice rows cut off at its end, nor a rehashed last row
  (`AuditChain.PrefixIsIntact`, `AuditChain.TamperIsReported`).
* Five failures are not a hard limit: overlapping requests reach 4+k (`LoginLimiting.BoundIsTight`).
* Archive entries decided by static rules carry no skip marker and show up as changed verdicts
  (`Replay.StaticMatchDrifts`).
* The CSV export ends records with LF, where section 2 of RFC 4180 has CRLF, and does not quote a cell
  for a carriage return. The round trip is proved for a reader of LF records; a reader of CRLF records
  may lose the carriage return of a cell that ends in one.
* A timer callback that is overtaken by a touch or cancel announces once more than the bursts account
  for, and deletes the new timer's entry (`Stabilizing.OncePerBurst`, `Stabilizing.OvertakenCallback`).
* The poller promises a new baseline for a corrupted state file, but bytes that are not text stop every
  later cycle before it saves (`Blocked` in `Poller`), and JSON that is no object stops one after saving.

## Model

| member | source | states |
|---|---|---|
| `FileMove.FileSystem.MoveFile` | interceptor/meta.go:86-111 | For a regular file, and dst anything, symbolic and hard links included: the bytes are complete at one end at every snapshot after every system call (where a crash may stop it) if and only if the move is not a lossy one; a nil return means dst holds them and src is gone if and only if moreover it was not a rename onto a hard link, which does nothing; an error leaves src with its bytes if and only if the move is not lossy. A copy succeeds exactly if no call of it fails, and a failed one is removed when that succeeds. A symbolic link is renamed as a link. No other name changes, and no file but the one dst leads to. |
| `FileMove.ReachingMove` | interceptor/meta.go:98-110 | When the truncating open of dst reaches src's own file: what is left at each snapshot and at the end, for empty and non-empty files and whatever call fails after it. |
| `FileMove.LossyMoves` | interceptor/meta.go:90-110 | Two lossy inputs: with dst a symbolic link to src on another file system the move returns nil and neither name has the bytes; with dst a hard link and a refused rename both names are left on an empty file. |
| `FileMove.FileSystem.CopyAcross` | interceptor/meta.go:93-111 | The cross-device half: the copy passes only through the phases nothing, part, both complete, only dst, and success means only dst is left; if the open of dst reaches src, the snapshots are exactly those of an emptied file. |
| `FileMove.FileSystem.FinishCopy` | interceptor/meta.go:102-110 | Close and the two removes, snapshot by snapshot, with each error branch. |
| `FileMove.EndsInPlainTerms` | interceptor/meta.go:102-110 | What they leave: success exactly if the copy did not fail and both calls succeed, and then src is gone; a failed copy removes dst and keeps src; a failed close or removal leaves both names, and only a failed close takes bytes away. |
| `CustodyInvariant.InvStep` | interceptor/worker.go:35-90 | Every step of daemon, backend, admin, lost message, torn write, crash and restart keeps the invariant: what each thread knows, that no two threads work on one entry, and that files, messages, rows and placed bytes agree. |
| `CustodyTheorems.ReleaseIsAuthorized` | interceptor/worker.go:59-90 | In every run what is put back is exactly the captured bytes, at their own original path, and only after the backend judged those very bytes of that entry Normal, or after an admin approved the very row its meta names: a row of that entry and path that records a Suspicious or Inconclusive verdict on those very bytes. |
| `CustodyTheorems.CompromisedStays` | backend/intercept_handlers.go:26-35 | Bytes that were only ever judged Compromised are never put back, in any run, whatever anybody approves. |
| `CustodyTheorems.RowWhen` | backend/intercept_handlers.go:46-82 | Every row is about the path and the file name its entry was captured from, and records the verdict that the backend came to on the captured bytes. |
| `Custody.BaseIs` | interceptor/worker.go:41-41 | The recorded file name is what follows the last slash of the captured path. |
| `CustodyTheorems.RowsAreNamedUnlessForgotten` | interceptor/worker.go:59-88 | In every run exactly one holds of each hold row: its answer has not been received or written down yet, or a held meta naming the row was completed, or a crash or a given-up write made the daemon forget the received answer, and then no entry ever names the row, resubmitted or not. |
| `CustodyTheorems.UnheardExactlyIfLeft` | interceptor/client.go:25-78 | In every run nobody waits for the answer to a request under way if and only if the thread that sent it has died or given up. |
| `CustodyTheorems.OrphanedForGood` | interceptor/worker.go:59-67 | If the sender of a request has died or given up when its answer is there, the row inserted for it is never named by a finished meta, at that or any later moment of the run. |
| `CustodyTheorems.UnnamedReleasesNothing` | interceptor/heldpoller.go:26-60 | A release on the ground of a row presupposes that a held meta naming it was completed, so approving an orphaned row releases nothing. |
| `CustodyTheorems.OneApprovalOneEntry` | interceptor/heldpoller.go:26-60 | Two releases on the ground of one approved row are releases of one entry. |
| `CustodyTheorems.HeldEntriesOwnTheirRows` | interceptor/worker.go:82-86 | Held entries never share a row id, and each names a row with its own path and an uncertain label. |
| `CustodyTheorems.DecisionsAreFinal` | backend/quarantine.go:54-68 | A row once approved or rejected is never changed again, in any run. |
| `CustodyTheorems.PayloadIsKept` | interceptor/worker.go:43-54 | From the last system call of the capturing move on, a payload, of a regular file, is whole in quarantine at every moment, unless a releasing move has already completed it at its path. |
| `CustodyTheorems.RemovalFollowsTheMove` | interceptor/worker.go:70-76 | RemoveAll is reached only after the releasing move returned nil, with the payload gone from quarantine and complete at its path (a path that does not lead to the payload itself). |
| `CustodyTheorems.StagesMoveForward` | interceptor/meta.go:17-23 | Each step leaves an entry at its stage or moves it to one of higher rank; blocked, unreadable and gone are final. |
| `CustodyTheorems.FewStageChanges` | interceptor/meta.go:17-23 | Over a whole run an entry changes its stage at most eight times. |
| `CustodyTheorems.StrandedExactlyByLoss` | interceptor/main.go:34-38 | In every run, a captured file that is not back and that no thread works on has an unreadable meta, which neither sweep nor poller sees, if and only if the daemon died or gave up a writeMeta between the last system call of the capturing move and a finished meta. |
| `CustodyTheorems.SweepIsExact` | interceptor/main.go:61-76 | A startup sweep that reaches its end has resubmitted exactly the entries whose meta was readable and pending_submit at boot, whatever the poller did meanwhile. |
| `Interceptor.ExecIsRun` | interceptor/worker.go:35-90 | Whatever the procedures below execute, under any scheduling of the others, is a run of the step system, so the theorems on runs hold of them. |
| `Interceptor.System.WriteMeta` | interceptor/meta.go:39-45 | An error leaves meta.json torn or untouched, success leaves it readable with the intended state; the payload stays. |
| `Interceptor.SnapshotsAbstract` | interceptor/meta.go:86-111 | The phases of a moveFile that does not reach its own source can be taken one after the other by the step system, and each of its snapshots shows the payload as the step system has it in that phase, when capturing and when releasing. |
| `Interceptor.System.MoveOut` | interceptor/worker.go:72-75 | Given phases moveFile can go through and a payload, the moves this thread takes are exactly those phases, in order, and the move succeeds exactly when the last one is the completed one; a failed move leaves the entry's files as they were. |
| `Interceptor.System.ReleaseEntry` | interceptor/worker.go:70-76 | For phases moveFile can go through and a payload, the payload leaves exactly if they end at the destination, and then the directory goes when both removals succeed; otherwise the entry's files are as they were. |
| `Interceptor.System.Submit` | interceptor/client.go:25-78 | It succeeds if and only if there is a payload, the request is sent, the backend comes to an answer meanwhile and the answer is not lost; the answer is release exactly for Normal and block exactly for Compromised; in no case are the entry's files touched. |
| `Interceptor.System.SubmitAndAct` | interceptor/worker.go:59-90 | The submission is sent and answered as Submit says, and acted on: without an answer the entry stays pending and whole, on release the payload leaves unless the move fails, on block the meta says blocked and on hold it names a row of this entry, unless the write fails, and the payload stays. |
| `Interceptor.System.ProcessNewFile` | interceptor/worker.go:35-54 | A vanished file changes nothing; a captured one keeps exactly its bytes and path in quarantine unless the backend answered release and the release completed; when the capture and the first meta succeed, the file is sent and the answer acted on. |
| `Interceptor.System.PollEntry` | interceptor/heldpoller.go:32-59 | An entry is polled exactly if its meta is readable and held and the poll succeeds; the status is what its row said; pending changes nothing, approved releases the payload unless the move fails, rejected records blocked with the payload kept. |
| `Interceptor.System.PollHeldEntries` | interceptor/heldpoller.go:26-60 | Of every entry held when the pass begins, whatever the others do meanwhile: if its row was approved and nothing fails it is back at its path and removed, if it was rejected it is blocked, and if it is still undecided or the poll failed it is as it was. |
| `Interceptor.System.ResubmitPendingEntries` | interceptor/main.go:61-76 | The sweep ends with nothing left; every listed entry that was pending at its start has been sent, if it could be, and the answer acted on: put back on release, blocked on block, untouched without an answer. |
| `Interceptor.System.InterceptHandler` | backend/intercept_handlers.go:26-86 | Normal is answered by release, Compromised by block, Suspicious and Inconclusive by hold with one new pending row for the submitted path; a hold that cannot be inserted answers nothing and changes no table. |
| `Interceptor.System.DecideQuarantine` | backend/quarantine.go:59-68 | Exactly a pending row is decided and nothing else changes; a missing or decided row is reported and left alone. |
| `Monitoring.InvStep` | backend/monitor.go:66-143 | The inductive invariant of flag, network, mutex and all threads at every lock, read, Docker call, write and unlock of any number of Tick, Reconnect and IsIsolated calls. |
| `Monitoring.ObserverIsRight` | backend/monitor.go:45-49 | Who holds the mutex and reads false finds the container attached; who reads true finds it detached or exactly one Reconnect past its Docker call and not yet cleared. |
| `Monitoring.QuiescentAgreement` | backend/monitor.go:55-64 | When no call is in progress, flag and attachment agree if and only if the startup inspect succeeded or the container was attached at startup. |
| `Monitoring.WrongStartStays` | backend/monitor.go:55-60 | From a failed inspect of a detached container, no sequence of calls ever repairs the flag or attaches the container. |
| `Monitoring.Monitor.CollectEvents` | backend/monitor.go:72-79 | The events sit at ascending places of the lines, and those places are all the JSON lines: none is lost, repeated, reordered or made up. |
| `Monitoring.Monitor.Tick` | backend/monitor.go:66-122 | Every Tick, whatever runs beside it, is a run of the step system. It acts if and only if the batch is not empty and Compromised; it then gives up only while another thread holds the mutex, finds the flag set, or fails, exactly if Docker fails or a failed startup inspect found the container detached; otherwise it has detached the container and set the flag. With nobody else acting each outcome and the final state are determined. |
| `Monitoring.Monitor.Reconnect` | backend/monitor.go:124-143 | Every Reconnect, also after a failed startup inspect, is such a run; a nil return leaves the flag clear and the container attached, a refusal finds the flag clear and never calls Docker, an error comes only from Docker or another Reconnect that was faster, and neither writes the flag. With nobody else acting each outcome and the final state are determined. |
| `AuditChain.TamperEvidence` | verdict-engine/audit_log.py:49-60 | Two logs that verify and end in the same hash, of any lengths, are equal row for row, or the extraction exhibits two distinct records with one digest, or a record digesting to the genesis value. |
| `AuditChain.TamperIsReported` | verdict-engine/audit_log.py:49-60 | A change confined to row k of an intact log is reported at k, or at k+1 when row k was rehashed with its link kept, and is missed only as a rehashed last row or a digest collision. |
| `AuditChain.PrefixIsIntact` | verdict-engine/audit_log.py:49-60 | Every prefix of an intact log is intact. |
| `AuditChain.FirstBad` | verdict-engine/audit_log.py:53-60 | The least offending row, absent exactly for an intact log. |
| `AuditChain.AppendKeepsIntact` | verdict-engine/audit_log.py:29-35 | Appending the linked row to an intact log keeps it intact. |
| `AuditChain.AuditLog.Append` | verdict-engine/audit_log.py:22-36 | One new row after unchanged old ones: the given record with its link set to the last hash, and its digest; intactness is kept. |
| `AuditChain.AuditLog.VerifyChainDetail` | verdict-engine/audit_log.py:49-60 | Intact exactly when every row links and rehashes; otherwise broken_at is the least offending row, counted from 1. |
| `AuditAppends.AppendsAreLinear` | verdict-engine/audit_log.py:18-36 | Under any interleaving of lock, read, insert, commit and rollback of any number of appends, the committed log verifies at every moment and holds each committed record exactly once and nothing else. |
| `AuditAppends.LogGrowsByCommits` | verdict-engine/audit_log.py:22-36 | A commit adds exactly its linked row at the end of the log as read by id; no other step changes it. |
| `LoginLimiting.LoginLimiter.RecentFailures` | backend/ratelimit.go:40-50 | The pruned list answers every present and future question as the full history would. |
| `LoginLimiting.RecentCounts` | backend/ratelimit.go:40-50 | What counts is exactly the failures of the last 15 minutes, each as often as it was recorded. |
| `LoginLimiting.LoginLimiter.Allow` | backend/ratelimit.go:25-29 | Allow is yes exactly if the full, never pruned history of that address has fewer than five failures in the window, for any nondecreasing clock. |
| `LoginLimiting.LoginLimiter.RecordFailure` | backend/ratelimit.go:31-36 | The full history of that address, and of no other, grows by exactly the new time, and pruning stays invisible. |
| `LoginLimiting.LoginHandler.Login` | backend/auth_handlers.go:116-141 | A refused address is answered before anything is read; a failure is recorded exactly for an unknown user or a wrong password, and only for its address; the calls stay a run of the limiter's steps. |
| `LoginLimiting.LoginHandler.HistoryIsBounded` | backend/auth_handlers.go:116-141 | Of any handlers' calls: if at most k requests of an address are ever between Allow and their end, no 15 minutes hold more than 4+k failures of its history. |
| `LoginLimiting.RecentTwice` | backend/ratelimit.go:40-50 | Pruning at an earlier time loses nothing that a later window counts. |
| `LoginLimiting.FailuresAreBounded` | backend/ratelimit.go:25-36 | If at most k requests of an address are between Allow and RecordFailure, no 15-minute window holds more than 4+k of its recorded failures. |
| `LoginLimiting.BoundIsTight` | backend/ratelimit.go:25-36 | For every k of at least one some run with at most k overlapping requests reaches 4+k. |
| `Events.FeaturesGrow` | verdict-engine/train.py:28-42 | Adding events anywhere switches rules on and never off. |
| `Events.FeaturesIgnoreOrder` | verdict-engine/train.py:28-42 | The features do not depend on the order of events. |
| `Sequences.FilterKeepsFirst` | verdict-engine/rule_scorer.py:20-24 | The event a reason names is the first one in the list that fires the rule. |
| `RuleScorer.ReasonsNameFirst` | verdict-engine/rule_scorer.py:20-52 | Each reason names the first event of the list that fires its rule; the last one names the number of changed files. |
| `RuleScorer.ScoreEvents` | verdict-engine/rule_scorer.py:16-54 | The confidence is 6, 5, 4 and 5 twentieths for the rules that fire, never cut by the cap, and the chain has one reason for each, in rule order. |
| `RuleScorer.VerdictCountsRules` | verdict-engine/rule_scorer.py:57-64 | With telemetry the label depends only on how many rules fire: none Normal, one or two Suspicious, three or four Compromised. |
| `RuleScorer.ConfidenceIsMonotone` | verdict-engine/rule_scorer.py:16-54 | The confidence ignores order, never falls when events are added, and reaches 1.0 exactly when all four rules fire. |
| `TrainedScorer.ScoreEvents` | verdict-engine/trained_scorer.py:25-80 | The confidence is the logistic function of the intercept plus the weights of the rules that fire; the chain is the sorted contributions. |
| `TrainedScorer.ChainRearrangesReasons` | verdict-engine/trained_scorer.py:77-80 | The chain holds exactly the rule scorer's reasons, in descending weight. |
| `TrainedScorer.ReasonsHaveTheirWeights` | verdict-engine/trained_scorer.py:77-80 | Each reason is sorted by the weight of its own rule. |
| `TrainedScorer.SortIsStable` | verdict-engine/trained_scorer.py:77-78 | Reasons of equal weight keep their rule order. |
| `TrainedScorer.ShippedVerdict` | verdict-engine/trained_weights.json:1-7 | With the shipped weights: Compromised if and only if a child process or odd port comes with a second rule; Normal if and only if nothing or a single file rule fires. |
| `TrainedScorer.TrainedIsStricter` | verdict-engine/trained_scorer.py:83-95 | Whatever the rule scorer calls Compromised the trained one does too, and it adds exactly the pairs with a child process or an odd port. |
| `RandomDraws.Shuffle` | verdict-engine/generate_training_data.py:83-84 | Whatever is drawn, a shuffle in place rearranges and loses nothing. |
| `TrainingData.GenerateOne` | verdict-engine/generate_training_data.py:50-84 | For every outcome of the random draws and the shuffle, the extracted features of the generated events are the requested combination. |
| `TrainingData.StratifiedCounts` | verdict-engine/generate_training_data.py:90-101 | Every one of the 16 feature vectors has exactly its n//16 examples, in whatever order they end up. |
| `TrainingData.GenerateDataset` | verdict-engine/generate_training_data.py:87-102 | Fewer than 160 is refused; otherwise the data set is a rearrangement of n//16 examples of each combination, each label the ground truth flipped exactly by its noise draw. |
| `TrainingData.SplitDataset` | verdict-engine/generate_training_data.py:105-124 | No example is lost, added or shared between train and test, and the training part of each label is its own share of that label, for every test fraction, negative or above one included. |
| `TrainingData.CutIsShare` | verdict-engine/generate_training_data.py:115-116 | For every fraction: the training share is the length times one minus the fraction, rounded down, between 0 and 1; everything below 0; and above 1 what a negative slice end leaves. |
| `TrainingData.TrainedLearntTheTruth` | verdict-engine/generate_training_data.py:35-47 | On every list of events the shipped trained scorer says Compromised if and only if the noise-free ground truth does; the rule scorer misses exactly the true pairs. |
| `Replay.Service.Score` | verdict-engine/app.py:112-186 | The record says what the deciding stage (hash, static rules, timeout, scorer, in this order) prescribes; the archive line matches it; a hash is proposed exactly for a sample the scorer itself calls Compromised; a refused audit write fails the request, a refused archive line does not. |
| `Replay.OneStageDecides` | verdict-engine/app.py:116-143 | Exactly one stage decides a request, and it fixes verdict, method and kind of explanation. |
| `Replay.ReplayOne` | verdict-engine/revalidation_report.py:51-90 | An archived request is skipped exactly for a hash match or a timeout, with the reason that says which; before is the archived label and after the candidate's; one the scorer decided flips exactly when the candidate's label differs; with the same scorer only static matches with harmless events flip. |
| `Replay.SameScorerReplay` | verdict-engine/revalidation_report.py:51-90 | Replaying a whole archive with the scorer that wrote it flips exactly those captures, and none when no static match is among them. |
| `Replay.RunArchive` | verdict-engine/revalidation_report.py:51-90 | One outcome for each entry, in order. |
| `Replay.BuildReport` | verdict-engine/revalidation_report.py:93-121 | total = scored_total + skipped_count, each counts its kind, and flipped_count counts the flips and never exceeds scored_total. |
| `Replay.Revalidate` | verdict-engine/revalidation_report.py:51-121 | From any service state, the report of a same-scorer replay counts exactly the drifting captures. |
| `Replay.StaticMatchDrifts` | verdict-engine/app.py:123-125 | A static match without telemetry is archived as Compromised with no skip marker, so the same scorer flips it. |
| `LinePatterns.ScanIsTheMatch` | sensor/src/parser.rs:7-16 | For patterns whose runs cannot borrow from the next token, the greedy scan succeeds exactly when a match exists, and yields the only one. |
| `TextLines.SplitConcat` | sensor/src/tracer.rs:12-12 | Splitting into lines distributes over newline-terminated text. |
| `TextLines.JoinSplit` | sensor/src/tracer.rs:12-18 | Joining the pieces gives the text back. |
| `TextLines.TrimStripEol` | sensor/src/parser.rs:20-21 | After trimming, lines() and split_inclusive() give the same lines. |
| `TraceParser.PatternsAreSeparated` | sensor/src/parser.rs:7-16 | All five patterns of the sensor are of that kind. |
| `TraceParser.CallsAreDistinct` | sensor/src/parser.rs:26-67 | No line matches two of the call patterns, so the order of the branches is immaterial. |
| `TraceParser.ParseTraceLog` | sensor/src/parser.rs:6-72 | The loop yields exactly the events of the non-empty lines, at most one each, in order. |
| `TraceParser.ParseConcat` | sensor/src/parser.rs:6-72 | Parsing is a homomorphism over newline-terminated pieces. |
| `TraceParser.StripRootExecve` | sensor/src/tracer.rs:8-20 | The loop removes the first line matching digits, space, execve( and keeps every other character. |
| `TraceParser.StripDropsOneLine` | sensor/src/tracer.rs:8-20 | Parsing the stripped text gives the events of the full text minus exactly the event, if any, of that line. |
| `TraceParser.StripKeepsRest` | sensor/src/tracer.rs:8-20 | Without such a line the text is unchanged. |
| `TraceParser.RootLineSpawns` | sensor/src/tracer.rs:9-16 | What is stripped is never more than one process event. |
| `TraceParser.ExecveLine` | sensor/src/parser.rs:26-34 | Every well-formed execve line, indented and continued anyhow, yields exactly its process event; a pid beyond 32 bits reads as 0. |
| `TraceParser.OpenatLine` | sensor/src/parser.rs:36-46 | Every well-formed openat line yields exactly its write event when its flags hold a write flag, and none otherwise. |
| `TraceParser.OpenLine` | sensor/src/parser.rs:48-58 | The same for the older open call. |
| `TraceParser.ConnectLine` | sensor/src/parser.rs:60-68 | Every well-formed connect line yields exactly its network event; a port beyond 16 bits reads as 0. |
| `TraceParser.EventIs` | sensor/src/parser.rs:26-67 | A line that starts with one of the four calls, in plain terms of digits, blanks, quotes, commas and flag letters, has exactly the event of what the call says. |
| `TraceParser.NoOtherEvents` | sensor/src/parser.rs:18-72 | No other line has an event. |
| `TraceParser.RootIs` | sensor/src/tracer.rs:9-16 | A line counts as the root one exactly if it starts with digits, blanks and execve(. |
| `TraceParser.NumbersAreRead` | sensor/src/parser.rs:27-28 | Reading the decimal text of a number gives the number: pids up to 32 bits and ports up to 16, anything larger 0. |
| `TraceParser.WritesExactly` | sensor/src/parser.rs:4-4 | A flag list opens for writing exactly if O_WRONLY, O_RDWR or O_CREAT stands in it. |
| `TraceParser.FlagNames` | sensor/src/parser.rs:39-39 | A flag list opens for writing exactly when one of its names does; no write flag spans a separator. |
| `TraceParser.BaseNameIs` | sensor/src/parser.rs:29-29 | The process name is what follows the last slash of the path. |
| `Accounts.StepKeepsInv` | backend/user_handlers.go:84-157 | Every request, login, logout, cleanup and restart, with any query failing, keeps an admin once any account exists and keeps session roles true up to failed drops. |
| `Accounts.RunKeepsInv` | backend/users.go:31-79 | Over every run: after the first account there is an admin at every moment. |
| `Accounts.RolesAgree` | backend/session.go:74-82 | If no drop of sessions fails, every stored session carries the role the users table holds for its user, at every moment. |
| `Accounts.AccountsChangeOnRequest` | backend/users.go:24-47 | After the first seed an account appears, vanishes or changes only by a request about it: no restart recreates a removed account or undoes a demotion. |
| `Accounts.OnlyAdminsManage` | backend/auth_handlers.go:51-81 | An account changes only through an unexpired session that says admin, of a user who is an admin unless dropping that user's sessions failed. |
| `Accounts.RefusalsAreExact` | backend/user_handlers.go:91-146 | A removal or demotion that meets no fault is refused if and only if it would leave no admin. |
| `Accounts.LastAdmin` | backend/user_handlers.go:76-82 | The count of admins is at most one exactly when removing or demoting this admin leaves none. |
| `Accounts.SeedBootstraps` | backend/users.go:31-79 | SeedUsers changes a non-empty table never, and an empty one to one with an admin or not at all, even when it then fails. |
| `Accounts.FileSeeds` | backend/users.go:55-79 | Of the users file the first entry of each new name is stored with its hash and role, none replaces an account, and it fails exactly at an unknown role or a failing insert. |
| `Accounts.RouteIsGuarded` | backend/user_handlers.go:39-157 | 401 exactly without a live session, 403 exactly with one of no admin, and then no account changes; otherwise each request is refused or carried out for exactly its stated reasons, and a removed or changed user has no session left unless dropping them fails. |
| `Accounts.SessionsComeFromLogins` | backend/session.go:25-61 | In every run every stored session was opened by a login of its user with the right password, and ends 8 hours after that login or the last request made with it. |
| `Accounts.Backend.SeedUsers` | backend/users.go:31-79 | The bootstrap with each of its error branches: which account it makes of which settings, and when it fails. |
| `Accounts.Backend.Handle` | backend/user_handlers.go:39-157 | The guarded route as RouteIsGuarded has it, with both tables after each branch; the invariant is kept. |
| `Accounts.Backend.Get` | backend/session.go:46-61 | Exactly an unexpired session is returned, and renewed for 8 hours; an expired one is deleted and refused; failed writes change nothing. |
| `Accounts.Backend.HandleLogin` | backend/auth_handlers.go:129-146 | A session is stored if and only if the user exists, the password matches and no query fails; it is for this user, with the current role, for 8 hours; a wrong password or unknown user is answered 401. |
| `Accounts.Backend.DeleteByUsername` | backend/session.go:74-82 | All and only the sessions of the user go, or none when the query fails. |
| `Stabilizing.NoMoreThanTouches` | interceptor/stabilizer.go:33-46 | In every run, with callbacks arriving however late, a path is announced at most as often as it is touched. |
| `Stabilizing.RunKeepsInv` | interceptor/stabilizer.go:39-44 | Every announcement comes at least the settle delay after the touch that armed its timer. |
| `Stabilizing.LastTouchIsAnnounced` | interceptor/stabilizer.go:33-57 | Once all timers have run, a path whose last touch no cancel followed has been announced by that touch. |
| `Stabilizing.QuietWhenRegistered` | interceptor/stabilizer.go:33-46 | In every run, a timer that falls due while it is the registered one of its path finds the path quiet for the settle delay. |
| `Stabilizing.QuietAtExpiry` | interceptor/stabilizer.go:33-46 | If firing and locking are one step, every timer that falls due finds its path quiet for the settle delay. |
| `Stabilizing.AnnouncementsCount` | interceptor/stabilizer.go:33-57 | In every run, per path, once all timers have run: announcements plus cancelled bursts equal bursts begun plus the touches and cancels that overtook a started callback of the path before it took the lock. |
| `Stabilizing.OncePerBurst` | interceptor/stabilizer.go:9-15 | Hence announcements plus cancelled bursts equal the bursts begun, in total per path, if and only if no touch or cancel of the path overtakes a started callback. |
| `Stabilizing.BurstsAnnouncedOnce` | interceptor/stabilizer.go:39-44 | In particular the totals agree if firing and locking are one step. |
| `Stabilizing.EachBurstOnce` | interceptor/stabilizer.go:9-15 | The same burst by burst: when a burst of a path is over, and nothing overtook a callback of that path so far, either it was cancelled and none of its timers sends, or it was not and exactly one of them does. |
| `Stabilizing.AnnouncedOnce` | interceptor/stabilizer.go:39-44 | In every run no timer announces twice. |
| `Stabilizing.OvertakenCallback` | interceptor/stabilizer.go:39-44 | A run with one overtaking: the path is announced right after a touch, and again after a cancel that found nothing to stop. |
| `Stabilizing.Stabilizer.Touch` | interceptor/stabilizer.go:33-45 | One step of the system: the registered timer is stopped unless its callback has started, and the new one registered. |
| `Stabilizing.Stabilizer.Cancel` | interceptor/stabilizer.go:50-57 | One step: the registered timer is stopped and forgotten. |
| `Stabilizing.Stabilizer.DeleteEntry` | interceptor/stabilizer.go:40-42 | One step: the callback deletes the path's entry, whichever timer it belongs to by then. |
| `Poller.DiffCounts` | monitored-endpoint/differ.py:43-77 | A diff reports each item that appears exactly once and nothing else, the poller's own tools excepted. |
| `Poller.DiffIsExact` | monitored-endpoint/differ.py:43-77 | A report is in the diff exactly if its process, connection or file is new and it gives the name, address or path it now has; processes come first, then connections, then files, each ascending. |
| `Poller.DiffSnapshots` | monitored-endpoint/differ.py:43-77 | The three loops over sorted differences, in order. |
| `Poller.ReportsAreTransitions` | monitored-endpoint/poller.py:37-71 | Over any run, with the state file missing or damaged before any cycles and saves failing, the reports about a process, connection or file number exactly its absent-to-present transitions between cycles with valid state. |
| `Poller.PreviousIsLastCycle` | monitored-endpoint/poller.py:53-59 | When every save succeeds and no undecodable bytes block the file, valid state is exactly the snapshot of the cycle before. |
| `Poller.FileHolds` | monitored-endpoint/poller.py:37-50 | The state file holds a snapshot exactly when the last saving cycle has not been damaged since. |
| `Poller.Poller.RunCycle` | monitored-endpoint/poller.py:53-71 | A baseline cycle saves and reports nothing; undecodable bytes stop a cycle before it saves. |
| `StringOrder.Sorted` | monitored-endpoint/differ.py:47-47 | sorted() of a set: its elements, ascending, without repetition. |
| `StringOrder.LeqIs` | monitored-endpoint/differ.py:47-47 | The order of sorted() is the dictionary order of the characters. |
| `CsvExport.CsvRoundTrip` | frontend/src/components/AuditLogTable.tsx:124-136 | A reader with the quoting rules of section 2 of RFC 4180 whose records end in LF, not CRLF, recovers every cell of every table, whatever the cells hold. |
| `CsvExport.QuotedIfNeeded` | frontend/src/components/AuditLogTable.tsx:124-127 | A cell is put in quotes exactly if it holds a quote, a comma or a line feed. |
| `CsvExport.ExportCsv` | frontend/src/components/AuditLogTable.tsx:129-136 | The exported text reads back as the nine column names and, for every row, its value in each column, empty where it has none. |
| `ShellWords.ShellQuoteRoundTrip` | backend/dockermanager.go:152-154 | The quoting rules of sections 2.2.1 and 2.2.2 of the POSIX.1-2017 Shell Command Language read shellQuote(s), alone or after other words, as exactly one word equal to s. |
| `ShellWords.QuotedContinuesWord` | backend/dockermanager.go:152-154 | From any state outside quotes and escapes the quoted text continues the current word, or starts one, by exactly s, with its quotes closed. |
| `ShellWords.ContinuationVanishes` | backend/dockermanager.go:152-154 | The reader used here drops a backslash followed by a newline, between words and within one, as section 2.2.1 of the POSIX.1-2017 Shell Command Language does before it splits words. |

## Left out

- CustodyTheorems.PayloadIsKept: the step system takes a move as its phases, so it covers regular files and moves whose destination does not lead back to the source; the other moves are covered by FileMove alone.
- CustodyTheorems.RemovalFollowsTheMove: likewise, a rename of the payload onto a hard link of itself, which returns nil with both names in place, is not a step of the step system.
- Symbolic links with relative targets, symbolic links among the directories of a path, and the contents behind a symbolic link that is itself the source of a move.
- Durability: a crash is a crash of the process; power loss and missing fsync are not modelled.
- Other programs touching a file while it is moved, and names colliding between random ids: entry ids are fresh.
- The order in which a directory is read: the sweep and the poller take entries in any order.
- A decision string that is none of release, block and hold, and a status string that is none of the three: the backend never sends them.
- Request plumbing (methods, body sizes, JSON decoding, multipart), desktop notifications, the five-second ignore window after a release, and the exclusion rules of the watcher.
- Listing the quarantine directory does not fail; a failed listing only ends that pass or sweep before it begins.
- Broadcasts and audit entries of the monitor; how the verdict on a batch is reached is a parameter.
- The prev_log_hash column of an audit row: verification reads the copy inside the record, and so does the model.
- JSON serialisation and SHA-256: one function from records to hashes, about which nothing is assumed.
- Per-address locking of the limiter: it is modelled for one address at a time, each call atomic under the mutex; time is an integer.
- The wording of reasons, and rounding of floating-point sums: confidences are exact, and the logistic function is any strictly increasing one that crosses 0.1 between -2.20 and -2.19 and 0.6 between 0.40 and 0.41.
- TrainingData.SplitDataset: the cut is computed on real numbers, so a rounding error in the product of length and fraction is not modelled; conservation does not depend on it.
- Event ids, timestamps and seeds of generated events; fitting the model and the accuracy report.
- The fixture half of the revalidation report and its text; loading a candidate module; reading an archive line back from JSON gives what was written.
- Known-bad hash and corpus approval stores: check_hash is a lookup, and a proposal is an attempt to propose.
- Digits and the digit class of the trace patterns are ASCII; the Rust class also admits other decimal digits, whose numbers then fail to parse and read as 0.
- Concurrent user-management handlers: counting admins and the write after it are separate queries, and the model takes each handler as one step; two handlers at once can remove the last two admins. Likewise a login: it reads the user and inserts the session by separate queries, and a role changed in between leaves a session with the old role although no drop of sessions failed.
- Decoding of user-management requests, bcrypt, and the audit entries these handlers send.
- The clock of the debouncer and the buffer of its channel: a send may wait arbitrarily long, but the channel has no bound in the model.
- Parsing of ps and ss output: snapshots are given; a pid is reported as the text it was listed by, and a connection by its key and address.
- A state file that holds a forged but valid snapshot, or a JSON object with missing keys.
- NUL characters in a quoted path, which no shell can hold, and the rest of the command line around it.
- String conversion of exported cells: a number is the text it converts to, and null, undefined and the empty text are the same empty cell.
- React components other than the CSV text, real-time behaviour, Docker, Postgres and nginx.
