# Verification of the SEO orchestrator

A Dafny model of the stateful core of the orchestrator, with proofs about whole runs of it. Check it with
`dafny verify dfyconfig.toml --resource-limit 2000000 --warn-contradictory-assumptions`.

## What is modelled

**The supervised ledger** (`Ledger*.dfy`, `SupervisedRail.dfy`). Each job has a row, packet rows, completion rows
and a hash-chained, authenticated event log. Writer and validator are separate code, and so they are here:
`LedgerSteps` gives every operation as a function on the tables, guarded by the UNIQUE constraints, foreign keys
and triggers; `LedgerValidator` is the replay validator as the loops that run it, proved to accept exactly the
declarative `LedgerModel.Accepts`; `SupervisedRail` is the object that updates its tables statement by statement
and rolls back. `LedgerContents` says what the operations decide, store and hand out, the prompts of all packets
over whole runs included, and `LedgerEvents` what the events of an accepted ledger say about its tables. SHA-256,
HMAC, the stage payload rules and the evidence rules are parameters (`LedgerModel.Env`). Nothing is assumed of the
hashes. Where distinctness matters, the conclusion is "or here is a collision", between two events or packets of
one job (`LedgerOutcomes.Collides`, `LedgerTheorems.ChainUnique`).

**The durable job runner** (`Runner*.dfy`, `RetryDelays.dfy`, `JobService.dfy`, `SuccessPath.dfy`,
`SuccessExample.dfy`, `ExecutionResults.dfy`). `RunnerTables` has the 27 repository calls on run rows as guarded
updates with the CHECK constraints and triggers in front, and the retry budgets. `JobService` adds the job table
with its audit log. `RunnerProtocol` interleaves any number of runners, the worker API, the external provider and
crashes: one step per transaction, one per provider call, and a runner remembers only what its local variables
would hold. `RunnerSteps` gives the effect of every step column by column. Fencing and agreement with the provider
hold for any number of runners. So does retry accounting (`RunnerBudgets`, `RunnerAccounts`), over exactly the runs
that apply a remembered retryable outcome where it belongs; one runner always does (`RunnerRetries`), two need not
(`RunnerStall`). `SuccessPath` follows a polled success on those tables through recording, moving, publishing and
binding, with the result in memory, and through the recovery that claims the row, decodes the stored bytes and
gives its lease back. `RunnerRepository` has the repository and job service methods in place, each row written out
column by column, over tables whose invariant every method keeps (`RunnerEffects.Sound`); `RunnerEffects` also says
which call writes which column.

**The approval-gated export** (`Export*.dfy`). Plans, approvals, claims, attempts and receipts around a backend
write that no transaction covers, with concurrent callers, writes that raise before or after taking effect, and
crashes. Fingerprints and export keys may collide. `ExportCells` says what plans, requests and rows carry.

**Canonical JSON** (`ObjectGraph.dfy`, `CanonicalJson.dfy`, `CanonicalText.dfy`, `JsonText.dfy`,
`CanonicalPlan.dfy`). The budgeted traversal of a heap of lists and dictionaries that may share and may form
cycles, the printer, a reader, and the round trips of execution plans and execution results. Printer and reader are
each proved against a grammar written without them: the canonical texts are exactly the printed ones, and the
reader accepts exactly the JSON texts whose numbers are integers.

**The notification sink** (`Notifications.dfy`, `NotificationSends.dfy`), **callback replay protection**
(`Callbacks.dfy`), **brief drafts** (`Briefs.dfy`) and **the text order of timestamps** (`UtcText.dfy`).

## Results that differ from what one would expect

- Resolving a recovery raises the integrity error on a ledger in which nothing is wrong, when an earlier stage had
  been recovered and the outstanding one never was (`src/seo_orchestrator/supervised_rail.py:2204`).
  `LedgerOutcomes.CorruptExactly` gives the exact condition over all operations, `LedgerRetries.RecoveryThenAdvance`
  produces it from any awaiting job, and `LedgerExample.CorruptOnHealthyLedger` is a concrete run.
- `JobService.transition` compares the state but not the attempt
  (`src/seo_orchestrator/services/jobs.py:645`), so with two runners a stalled outcome can be applied to a later
  attempt. `RunnerStall.StalledRunnerOverspends` is a concrete run in which two attempts are used up on one charge;
  `RunnerAccounts.OutcomeKeepsAccounts` and `FinalizeKeepsAccounts` give the exact condition, and
  `RunnerAccounts.BudgetsHold` the accounts for all runs that meet it.
- A recovery that crashes after binding the manifest leaves its lease on the row, and no later recovery takes it off
  (`SuccessPath.LeaseLeftBehind`). Nothing else can differ from an uninterrupted poll
  (`SuccessPath.CrashesDoNotMatter`).
- A callback that is verified in time but accepted only after its signature went stale can consume a nonce a second
  time, if another callback pruned the table in between (`Callbacks.LateAcceptanceReplays`). The second copy is then
  answered as a duplicate: no signature is accepted twice (`Callbacks.ConsumedOnce`).
  `Callbacks.ReplayedExactlyWhenPruned` says when it cannot happen.

## Reading order

`Texts`, `JsonValue`; then `LedgerModel`, `LedgerSteps`, `LedgerAgreement`, `LedgerTheorems`, `LedgerEvents`,
`LedgerOutcomes`, `LedgerContents`, `SupervisedRail`; then `RunnerTables`, `RunnerFencing`, `JobService`,
`RunnerProtocol`, `RunnerAgreement`, `RunnerEffects`, `RunnerSteps`, `RunnerBudgets`, `RunnerAccounts`,
`RunnerStall`, `SuccessPath`, `RunnerRepository`; then `ExportModel`, `ExportProtocol`, `ExportCells`; then
`CanonicalJson`, `CanonicalText`, `JsonText`; the others stand alone. Every method named after an operation of the
source is proved against a function of the same meaning, and the lemmas are about that function.

## Model

| member | source | states |
|---|---|---|
| LedgerAgreement.RunsAgree | src/seo_orchestrator/supervised_rail.py:1648-2330 | After any finite sequence of prepare, bind, artifact, recovery, resolve and cancel calls, with any arguments, on any jobs, from any sound ledger, the tables of every job pass the full replay validator and satisfy the declared constraints |
| LedgerAgreement.StepSound | src/seo_orchestrator/supervised_rail.py:1648-2330 | One call of any operation keeps every job acceptable to the validator |
| LedgerAgreement.AppendLogged | src/seo_orchestrator/supervised_rail.py:611-683 | Appending an event that replay takes from one view to another leaves an authentic chain whose stored head is its last event and whose replay is the second view |
| LedgerAgreement.FreshAccepted | src/seo_orchestrator/supervised_rail.py:1648-1741 | The tables of a newly prepared job are accepted |
| LedgerAgreement.PrepareSound | src/seo_orchestrator/supervised_rail.py:1648-1741 | Preparing keeps every job accepted, whether the job is new, prepared before or refused |
| LedgerAgreement.RejectSound | src/seo_orchestrator/supervised_rail.py:1147-1171 | A rejected submission, with its two events, leaves the job accepted by the validator |
| LedgerAgreement.AdmitSound | src/seo_orchestrator/supervised_rail.py:1839-1919 | An admitted completion leaves the job accepted, through the next packet or through final QA |
| LedgerAgreement.BindSound | src/seo_orchestrator/supervised_rail.py:1743-1919 | A submission keeps every job accepted on each of its outcomes |
| LedgerAgreement.ArtifactSound | src/seo_orchestrator/supervised_rail.py:2028-2091 | Freezing an artifact keeps every job accepted |
| LedgerAgreement.RecoverySound | src/seo_orchestrator/supervised_rail.py:2288-2330 | Marking recovery keeps every job accepted |
| LedgerAgreement.ResolveSound | src/seo_orchestrator/supervised_rail.py:2117-2231 | Resolving recovery keeps every job accepted |
| LedgerAgreement.CancelSound | src/seo_orchestrator/supervised_rail.py:2233-2286 | Requesting cancellation keeps every job accepted |
| LedgerAgreement.HeadPacket | src/seo_orchestrator/supervised_rail.py:943-944 | On an accepted ledger the stored head packet is the last packet row, rebuilds unchanged, and carries the job and authority columns |
| LedgerAgreement.NextPacketFields | src/seo_orchestrator/supervised_rail.py:551-608 | The packet built for the next stage rebuilds unchanged, has the next number, names the accepted completion as predecessor, keeps identity, authority, provider, model, session and template, and its prompt is the heading of the new stage, the history of the stage just accepted (its name, the completion hash, the payload), and the rest of the old prompt behind its heading |
| LedgerAgreement.OutlineFields | src/seo_orchestrator/supervised_rail.py:361-419 | The packet built for a job is an outline packet of that job that rebuilds unchanged, with every authority column of the job and snapshot, the fixed provider, model and pipeline, under the hash of the frozen context |
| LedgerValidator.ValidatedStatus | src/seo_orchestrator/supervised_rail.py:1017-1144 | The validator, run as its loops, returns the stored status exactly on accepted tables and raises on all others |
| LedgerValidator.CheckChain | src/seo_orchestrator/supervised_rail.py:1053-1126 | The event loop passes exactly the authentic chains and hands on their bodies |
| LedgerValidator.ReplayEvents | src/seo_orchestrator/supervised_rail.py:751-886 | The record-building loop computes the replay of the bodies and stops exactly where replay is refused |
| LedgerValidator.CheckOrder | src/seo_orchestrator/supervised_rail.py:888-903 | The position loop and the final checks pass exactly the views whose packets, acceptances, final record and artifact record are in order |
| LedgerValidator.CheckPackets | src/seo_orchestrator/supervised_rail.py:905-944 | The packet loop passes exactly the packet tables that match the packet events and the job row, with the last row as head |
| LedgerValidator.CheckCompletionRow | src/seo_orchestrator/supervised_rail.py:975-998 | The body of the completion loop passes exactly the rows that re-verify against their packet |
| LedgerValidator.CheckRows | src/seo_orchestrator/supervised_rail.py:965-999 | The completion loop passes exactly when each joined row agrees with its acceptance |
| LedgerValidator.JoinDecides | src/seo_orchestrator/supervised_rail.py:946-964 | Comparing the joined rows and their count with the acceptances decides whether exactly a prefix of the packets is completed as accepted |
| LedgerValidator.CheckCompletions | src/seo_orchestrator/supervised_rail.py:946-999 | The completion checks pass exactly when the completions table agrees with the acceptances |
| LedgerValidator.CompletionHashes | src/seo_orchestrator/supervised_rail.py:965-999 | The dictionary the completion loop leaves behind holds the accepted hash of exactly the completed packets |
| LedgerValidator.CheckLinks | src/seo_orchestrator/supervised_rail.py:1001-1008 | The predecessor loop passes exactly when every later packet names the accepted completion before it |
| LedgerValidator.CheckMaterialized | src/seo_orchestrator/supervised_rail.py:710-1014 | The whole materialization check passes exactly when the bodies replay and every table agrees with the view |
| LedgerModel.ReplayShape | src/seo_orchestrator/supervised_rail.py:755-886 | Any event list the replay accepts yields stages in order, acceptances matched to packets in order, and positions inside the list |
| LedgerModel.PacketReload | src/seo_orchestrator/supervised_rail.py:89-124 | A packet rebuilt from stored fields is unchanged exactly when its texts are trimmed, its stage fits its number, its digests are well formed and it hashes to its own input hash |
| LedgerModel.NewPacketOk | src/seo_orchestrator/supervised_rail.py:89-124 | Packet construction returns only packets that rebuild unchanged |
| LedgerModel.CompletionReload | src/seo_orchestrator/supervised_rail.py:127-167 | A completion that the constructor accepted rebuilds unchanged from its stored value |
| LedgerTheorems.PacketsAreStages | src/seo_orchestrator/supervised_rail.py:905-944 | On any accepted ledger, reachable or not, the packets are a nonempty prefix of the four stages |
| LedgerTheorems.CompletedPackets | src/seo_orchestrator/supervised_rail.py:946-964 | On any accepted ledger the completed packets are a prefix that lacks at most the last packet |
| LedgerTheorems.PacketsAreLinked | src/seo_orchestrator/supervised_rail.py:1001-1008 | On any accepted ledger every later packet names the hash of the stored completion of the packet before it |
| LedgerTheorems.CompletionsWereChecked | src/seo_orchestrator/supervised_rail.py:965-999 | On any accepted ledger every stored completion would be admitted again by the checks of the submission itself |
| LedgerTheorems.RecordsAreEvents | src/seo_orchestrator/supervised_rail.py:868-886 | The final and artifact records of a replay sit exactly at the events of those types |
| LedgerTheorems.FinalThenArtifact | src/seo_orchestrator/supervised_rail.py:888-903 | On any accepted ledger final QA is recorded at most once and only over four completions, an artifact at most once and only after it, and the job row is bound exactly when the event exists |
| LedgerEvents.EventsTell | src/seo_orchestrator/supervised_rail.py:751-944 | Every event of an accepted ledger has exactly the fields of its form, and the tables are what the events say: the n-th prepared packet is packet row n, the n-th acceptance names packet n and its stored completion, final QA names the last packet, and the freezing event has the columns of the artifact |
| LedgerEvents.ReplayDecided | src/seo_orchestrator/supervised_rail.py:751-886 | Replay takes an event exactly if it has its form and may come next (the next stage with its number, the first packet without an acceptance, final QA and artifact once), and records what the form says |
| LedgerEvents.NeutralForms | src/seo_orchestrator/supervised_rail.py:686-709 | The events that record nothing are accepted exactly in their forms: five submission fields, a reason, or the fixed answers of a resolution and a cancellation |
| LedgerEvents.RecordForms | src/seo_orchestrator/supervised_rail.py:751-860 | So are the events that record a packet, an acceptance, final QA or an artifact |
| LedgerEvents.HistoryTold | src/seo_orchestrator/supervised_rail.py:751-886 | The view replayed from a history has one record for every recording event, at its position |
| LedgerEvents.StatusTells | src/seo_orchestrator/supervised_rail.py:1128-1144 | The last event of an accepted ledger determines the status, by a table of seven pairs; no history ends in a submission or an acceptance |
| LedgerTheorems.ChainUnique | src/seo_orchestrator/supervised_rail.py:1053-1126 | Two authentic chains of a job with the same last hash are the same chain or exhibit a hash collision |
| LedgerTheorems.SameHeadSameLedger | src/seo_orchestrator/supervised_rail.py:1017-1144 | Two accepted ledgers of a job with the same stored head hash agree in every table and column, or exhibit a hash collision |
| LedgerHistory.StepExtends | src/seo_orchestrator/supervised_rail.py:1450-1590 | Every call, even on a ledger the validator refuses, touches only its own job and only extends its events, packets, completions and bindings |
| LedgerHistory.RunExtends | src/seo_orchestrator/supervised_rail.py:1450-1590 | Over any run the earlier tables of a job are a prefix of the later ones |
| LedgerHistory.RejectAppends | src/seo_orchestrator/supervised_rail.py:1774-1838 | A rejection adds exactly a submission and a rejection event and nothing else |
| LedgerHistory.AcceptAppends | src/seo_orchestrator/supervised_rail.py:1774-1861 | An acceptance adds exactly a submission and an acceptance event and one completion |
| LedgerHistory.FinalAppends | src/seo_orchestrator/supervised_rail.py:1867-1883 | The last acceptance adds exactly three events and one completion and moves the status to final QA |
| LedgerHistory.AdvanceAppends | src/seo_orchestrator/supervised_rail.py:1884-1919 | An earlier acceptance adds exactly three events, one completion and one packet, and moves the head to it |
| LedgerHistory.FailureCommitsNothing | src/seo_orchestrator/supervised_rail.py:1743-2330 | A call that returns no result leaves every table as it was, except that a rejection commits its two events |
| LedgerOutcomes.BindDecided | src/seo_orchestrator/supervised_rail.py:1743-1919 | On a grown ledger the outcome of a submission is decided by the status, the completion table and four checks written out: the completion names the outstanding packet, attests its session, provider and model, passes the payload rules, and at the last stage the source rules. Each outcome holds if and only if its condition does; the one exception, an abort, exhibits a hash collision among the rows of this job and this call |
| LedgerOutcomes.JudgeDecides | src/seo_orchestrator/supervised_rail.py:1787-1838 | The verdict on a submission: identity is compared first, then the attestation, then the payload rules, then, at the last stage, the source rules; the first that fails gives the reason, and an exception inside a check gives none |
| LedgerContents.PromptsTell | src/seo_orchestrator/supervised_rail.py:551-608 | In every run from the empty ledger the prompt of packet i is the heading of stage i, then the history of stages i-1 down to 0 with the hash and payload of the stored completions, then the instructions of the frozen context |
| LedgerContents.BindHandsOut | src/seo_orchestrator/supervised_rail.py:1743-1919 | The packet a submission returns is stored last, is the head of the job, and carries exactly that prompt |
| LedgerContents.NextPacketBuilt | src/seo_orchestrator/supervised_rail.py:551-608 | A next packet differs from its predecessor in stage, number, predecessor hash, own hash and prompt alone |
| LedgerContents.BindLogs | src/seo_orchestrator/supervised_rail.py:1743-1919 | A submission that commits appends exactly these event bodies: the submission with both packets named and the operator; then a rejection with the reason; or an acceptance with the completion hash, followed by the next packet or final QA |
| LedgerContents.CancelDecided | src/seo_orchestrator/supervised_rail.py:2233-2286 | A cancellation is granted exactly on an awaiting or recovering job; it logs the operator, the prior status and the outstanding packet, sets the status and changes nothing else; a repeated one answers without writing; every other status is refused |
| LedgerContents.RecoveryDecided | src/seo_orchestrator/supervised_rail.py:2288-2330 | Recovery is marked exactly on an awaiting job, with the outstanding packet named in the event; every other status is refused or answered without writing |
| LedgerContents.ResolutionDecided | src/seo_orchestrator/supervised_rail.py:2117-2231 | A resolution is granted exactly on a recovering job for the outstanding packet and an operator; an awaiting job answers by its last resolution alone; everything else is refused, and what is logged is written out |
| LedgerContents.ArtifactDecided | src/seo_orchestrator/supervised_rail.py:2028-2091 | An artifact is frozen exactly after final QA, with path and hash bound and logged; a frozen job answers the same binding and refuses another |
| LedgerContents.PrepareDecided | src/seo_orchestrator/supervised_rail.py:1648-1741 | Preparing inserts a job exactly if it is new and its packet can be built, with every column of the job row written out; a prepared job answers the same packet exactly while nothing of it changed |
| LedgerContents.PrepareAccepts | src/seo_orchestrator/supervised_rail.py:361-419 | A packet can be built only for a job whose binding agrees with the snapshot and whose context has its hash |
| LedgerOutcomes.BindWorks | src/seo_orchestrator/supervised_rail.py:1774-1919 | Past its guards no statement of a submission is aborted by a constraint or trigger, unless rows of this job collide |
| LedgerOutcomes.AbortedByCollision | src/seo_orchestrator/supervised_rail.py:1397-1590 | A call is aborted by a UNIQUE constraint, foreign key or trigger only if two events or packets of this job, stored or about to be inserted by this call, are different and have the same hash |
| LedgerOutcomes.CorruptExactly | src/seo_orchestrator/supervised_rail.py:2117-2231 | The integrity error is raised on a healthy ledger by exactly one call: resolving the outstanding packet of an awaiting job whose last resolution came before that packet was prepared; nothing is assumed of the hashes |
| LedgerOutcomes.ReplayCorrupt | src/seo_orchestrator/supervised_rail.py:2146-2208 | A repeated resolution contradicts the last resolution event exactly when that event precedes the head packet |
| LedgerOutcomes.NextPacketExists | src/seo_orchestrator/supervised_rail.py:551-608 | A packet whose prompt starts with its heading has a successor, and the prompt of the successor is heading, history, then the rest of the old prompt |
| LedgerOutcomes.OutlineHeaded | src/seo_orchestrator/supervised_rail.py:361-419 | The prompt of the first packet is its heading and the instructions of the frozen context, nothing else |
| LedgerOutcomes.PacketIsNew | src/seo_orchestrator/supervised_rail.py:1399-1408 | The next packet violates no constraint of the packet table, or collides with a stored packet of the job |
| LedgerOutcomes.RunsGrow | src/seo_orchestrator/supervised_rail.py:1648-2330 | Every ledger built from the empty one keeps the invariant behind these: frozen columns, and prompts that tell the whole history |
| LedgerRetries.RepeatIsIdempotent | src/seo_orchestrator/supervised_rail.py:1648-2330 | Every operation but a submission, repeated after success at another time, gives the same answer and writes nothing |
| LedgerRetries.AdmittedOnce | src/seo_orchestrator/supervised_rail.py:1743-1757 | Once a submission for a packet is admitted, no later one for that packet is, whatever runs in between |
| LedgerRetries.RecoveryThenAdvance | src/seo_orchestrator/supervised_rail.py:2117-2231 | From any awaiting job: recover a stage, have it admitted, resolve the next one; the ledger stays sound, and unless one of the three calls was aborted the last one raises the integrity error |
| LedgerExample.CorruptOnHealthyLedger | src/seo_orchestrator/supervised_rail.py:2117-2231 | A concrete run from the empty ledger, with no call aborted, on which the integrity error is raised although every job passes the validator |
| LedgerExample.ExampleAssumptions | src/seo_orchestrator/supervised_rail.py:217-230 | A concrete environment meets the one assumption of the outcome theorems, that the instruction texts are visible |
| LedgerExample.SmallNeverAborts | src/seo_orchestrator/supervised_rail.py:1397-1590 | With hashes that merely number events and packets no call on a job of up to twelve events is aborted, so the collision in the outcome theorems is an exception that can be absent |
| LedgerSteps.LastOf | src/seo_orchestrator/supervised_rail.py:2147-2154 | The row the resolution replay reads is the last one of its type |
| SupervisedRail.SupervisedRail.AppendEvent | src/seo_orchestrator/supervised_rail.py:611-683 | Inserts the chained row and advances the stored head, or changes nothing when a constraint aborts |
| SupervisedRail.SupervisedRail.Validate | src/seo_orchestrator/supervised_rail.py:1017-1144 | Returns the stored status exactly when the job is accepted |
| SupervisedRail.SupervisedRail.ChangeStatus | src/seo_orchestrator/supervised_rail.py:2211-2230 | Sets a status together with its event, or restores everything |
| SupervisedRail.SupervisedRail.PreparePacket | src/seo_orchestrator/supervised_rail.py:1648-1741 | The in-place operation leaves the ledger and gives the outcome of the step function |
| SupervisedRail.SupervisedRail.AdmitCompletion | src/seo_orchestrator/supervised_rail.py:1774-1861 | Submission event, completion row and acceptance event, statement by statement |
| SupervisedRail.SupervisedRail.AdvancePacket | src/seo_orchestrator/supervised_rail.py:1884-1919 | Packet row, event and head, statement by statement |
| SupervisedRail.SupervisedRail.BindCompletion | src/seo_orchestrator/supervised_rail.py:1743-1919 | In place, statement by statement with rollback, a submission leaves exactly the tables and the outcome of the submission step; on a grown ledger a returned packet is stored, is the head, and its prompt tells the whole history |
| SupervisedRail.SupervisedRail.BindAwaitingCompletion | src/seo_orchestrator/supervised_rail.py:1774-1919 | The part of it for an awaiting job, with the same promise for the packet it returns |
| SupervisedRail.SupervisedRail.RecordFrozenArtifact | src/seo_orchestrator/supervised_rail.py:2028-2091 | The in-place operation leaves the ledger and gives the outcome of the step function |
| SupervisedRail.SupervisedRail.MarkOperatorRecoveryRequired | src/seo_orchestrator/supervised_rail.py:2288-2330 | The in-place operation leaves the ledger and gives the outcome of the step function |
| SupervisedRail.SupervisedRail.ResolveRecoveryForExactBinding | src/seo_orchestrator/supervised_rail.py:2117-2231 | The in-place operation leaves the ledger and gives the outcome of the step function |
| SupervisedRail.SupervisedRail.RequestCancel | src/seo_orchestrator/supervised_rail.py:2233-2286 | The in-place operation leaves the ledger and gives the outcome of the step function |
| SupervisedRail.SupervisedRail.Status | src/seo_orchestrator/supervised_rail.py:2332-2345 | Returns the stored status exactly on accepted tables |
| SupervisedRail.SupervisedRail.OutstandingPacket | src/seo_orchestrator/supervised_rail.py:2347-2363 | On an accepted awaiting job it returns the last packet row, rebuilt unchanged |
| SupervisedRail.SupervisedRail.FinalCompletion | src/seo_orchestrator/supervised_rail.py:1974-2026 | Past final QA of an accepted ledger it always finds the revision completion, which passes every submission check; its own integrity checks never fire |
| SupervisedRail.StepIsLocal | src/seo_orchestrator/supervised_rail.py:1648-2330 | What a call does to a job depends on that job's tables alone, and refused tables are left alone |
| SupervisedRail.StepSchema | src/seo_orchestrator/supervised_rail.py:1397-1590 | The declared constraints survive every call even while other jobs' tables are corrupt |
| Texts.StripTrims | src/seo_orchestrator/supervised_rail.py:50-54 | Stripping leaves the empty text or one without outer white space |
| Texts.StripRemovesSpaces | src/seo_orchestrator/supervised_rail.py:50-54 | Stripping removes spaces at both ends, and nothing else |
| Texts.SpacesAre | src/seo_orchestrator/supervised_rail.py:50-54 | The characters that stripping removes are 29 code points |
| Texts.HexIsLower | src/seo_orchestrator/supervised_rail.py:56-60 | A hash is 64 lower-case hexadecimal digits |
| Texts.BeforeMeans | src/seo_orchestrator/canonical.py:110-116 | The order of keys and texts is decided by code point at the first difference, or by one text ending |
| RunnerAgreement.RunsAgree | src/seo_orchestrator/runner.py:539-880 | For any number of runners with crashes between any two transactions, every row with an external id agrees with the provider's durable entry for its key, acceptances lie inside the approval window, and every provider run belongs to a claimed attempt |
| RunnerAgreement.StepAgrees | src/seo_orchestrator/runner.py:539-1785 | Every step of the protocol keeps that agreement |
| RunnerAgreement.OneRunPerAttempt | src/seo_orchestrator/executors/base.py:214-216 | In every reachable state an accepted row names the provider run under the key of its attempt |
| RunnerAgreement.AttemptsShareNoRun | src/seo_orchestrator/executors/base.py:214-216 | In every reachable state two accepted rows with one external run id are the same row, and a provider run belongs to one attempt, for identifiers without a colon |
| RunnerAgreement.KeysInjective | src/seo_orchestrator/executors/base.py:214-216 | Identifiers without a colon and positive attempts are recovered from the idempotency key |
| RunnerAgreement.RecheckPasses | src/seo_orchestrator/runner.py:363-410 | The recheck of an acceptance before each poll, cancel and recovery passes on every reachable row: approved, submitted, accepted and observed in this order, and accepted before the approval ran out |
| RunnerAgreement.RecordedRow | src/seo_orchestrator/db/repositories.py:1304-1340 | A row that gains an acceptance gains exactly the one its call carries |
| RunnerAgreement.SubmitAgrees | src/seo_orchestrator/executors/mock.py:168-236 | Submitting to the provider, which returns the stored run of the key or creates one inside the authority window, keeps the agreement |
| RunnerAgreement.LookupAgrees | src/seo_orchestrator/executors/mock.py:338-365 | Looking a key up keeps the agreement |
| RunnerAgreement.CancelAgrees | src/seo_orchestrator/executors/mock.py:378-396 | Canceling a run at the provider keeps the agreement |
| RunnerAgreement.RecordStepAgrees | src/seo_orchestrator/runner.py:833-880 | Recording a validated acceptance keeps the agreement |
| RunnerBudgets.ChargedCall | src/seo_orchestrator/db/repositories.py:1285-1302 | A call that consumes a retry within its limit keeps the accounts |
| RunnerBudgets.UnchargedCall | src/seo_orchestrator/db/repositories.py:1115-2314 | A call that charges nothing and marks nothing retryable keeps the accounts |
| RunnerBudgets.OverdrawnIsFinal | src/seo_orchestrator/runner.py:1165-1198 | A charge taken while a final failure is recorded found its stage within the limit and ends the attempt final |
| RunnerBudgets.ServiceAccounts | src/seo_orchestrator/services/jobs.py:490-672 | So does every job operation that does not declare a job retryable |
| RunnerBudgets.MoveAccountsExactly | src/seo_orchestrator/services/jobs.py:618-658 | From tables in order, moving a job leaves them in order if and only if the target is not FAILED_RETRYABLE or the current attempt ended retryable |
| RunnerBudgets.AttemptsCounted | src/seo_orchestrator/services/jobs.py:559-672 | Every attempt before the current one is a retryable row of its own |
| RunnerAccounts.BudgetsHold | src/seo_orchestrator/db/repositories.py:1272-1302 | For any number of runners, the service and crashes, over every run whose claims draw unremembered tokens and whose retryable outcomes are applied to the attempt they belong to, or to one that ended retryable as well: submission and cancel failures stay within the limit, a poll stage passes it by at most one and only with an attempt that ended final, and attempts used up never outnumber charged poll failures |
| RunnerAccounts.StepKeeps | src/seo_orchestrator/runner.py:539-1785 | Every such step keeps the retry accounts, and every runner's remembered count is the budget as long as its lease is on the current attempt |
| RunnerAccounts.OutcomeKeepsAccounts | src/seo_orchestrator/runner.py:1260-1304 | From tables in order, an applied poll outcome that moves the job leaves them in order if and only if it is not retryable, or belongs to the current attempt, or the current attempt ended retryable itself |
| RunnerAccounts.FinalizeKeepsAccounts | src/seo_orchestrator/runner.py:1690-1785 | The same, exactly, for a runner that claimed the ended run and moves the job |
| RunnerAccounts.OutcomesStand | src/seo_orchestrator/runner.py:1165-1304 | In every reachable state, guarded or not, a retryable outcome that a runner is about to apply stands in the row of its attempt |
| RunnerAccounts.CallKnows | src/seo_orchestrator/db/repositories.py:1115-1302 | A call of one runner leaves what every other runner remembers true |
| RunnerAccounts.ReportKeeps | src/seo_orchestrator/runner.py:1165-1198 | A failing report is charged and retried or made final within the accounts |
| RunnerAccounts.RaiseKeeps | src/seo_orchestrator/runner.py:1003-1085 | A poll that raises is charged and retried within the accounts, or ends the attempt uncharged (RunnerSteps.RaiseDecided says which) |
| RunnerAccounts.FinalizeKeeps | src/seo_orchestrator/runner.py:1690-1785 | Applying a recorded terminal outcome under the guard keeps the accounts |
| RunnerSteps.RaiseDecided | src/seo_orchestrator/runner.py:1003-1107 | A poll that raised, for the holder of an open row, column by column: a transient failure within the budget leaves the run open, charges the stage of the held row once, and schedules the next poll; beyond the budget nothing changes; any other failure ends the run for good, uncharged, with its error columns and completion time, and the runner goes on to fail the job |
| RunnerSteps.ReportDecided | src/seo_orchestrator/runner.py:1165-1241 | A failing report: retryable and transient within the budget ends the run retryable and schedules the retry, every other one ends it for good; the reported stage is charged exactly if it is retryable and transient |
| RunnerSteps.LiveDecided | src/seo_orchestrator/runner.py:1133-1241 | A run still under way is noted with its stage and next poll, uncharged; a running row is never accepted once more |
| RunnerSteps.EndDecided | src/seo_orchestrator/runner.py:1143-1241 | A success stores its result, a cancellation none; both end the run now, clear the error columns, charge nothing, and the runner goes on to end the job so |
| RunnerSteps.LostPoll | src/seo_orchestrator/runner.py:1213-1243 | A runner that lost its lease, or whose row is no longer open, records nothing from its poll and is done |
| RunnerSteps.PollRecorded | src/seo_orchestrator/db/repositories.py:1545-1606 | A recorded status writes exactly its columns, frees the row, and charges exactly the stage asked for |
| RunnerSteps.FailureCounted | src/seo_orchestrator/db/repositories.py:1272-1283 | A failing call reads the failures charged so far to the stage it failed in: submission, the stage reported, the stage of the held row, or cancellation |
| RunnerSteps.SubmitFailureDecided | src/seo_orchestrator/runner.py:760-812 | A failed submission within the budget is charged and scheduled again, the row unanswered; otherwise nothing changes |
| RunnerSteps.CancelFailureDecided | src/seo_orchestrator/runner.py:1545-1585 | A failed cancellation of an accepted run within the budget is charged and scheduled again; otherwise nothing changes |
| RunnerSteps.OutcomeDecided | src/seo_orchestrator/runner.py:1243-1304 | The outcome of a poll moves the running job to the state it ended in, exactly if the transition is granted, with its failure and stage in the columns of the job |
| RunnerSteps.RetryDecided | src/seo_orchestrator/runner.py:1306-1325 | A retry requeues the job one attempt later with its error columns cleared, exactly if the transition is granted |
| RunnerSteps.ServiceDecided | src/seo_orchestrator/services/jobs.py:405-557 | The worker API and the artifact step plan, approve and bind, and move a job along four edges alone |
| RunnerSteps.HousekeepDecided | src/seo_orchestrator/db/repositories.py:1608-2314 | Eleven calls are made only by a runner in their place; every other one may come from anywhere |
| RunnerSteps.ConsumeDecided | src/seo_orchestrator/db/repositories.py:1821-1843 | The row of the failed attempt is then taken off the schedule and freed, and nothing else |
| RunnerSteps.FinalizeDecided | src/seo_orchestrator/runner.py:1690-1785 | A recovery moves the job by a table of recorded end and job state, with the failure and stage of the row, exactly if the acceptance lies inside the authority of the job and the transition is granted |
| RunnerSteps.ClaimDecided | src/seo_orchestrator/db/repositories.py:1115-1157 | A claim of an existing run is granted exactly if the run ended or is open as its purpose asks, the job is where it asks, and nobody else holds the row; it takes the lease and no more |
| RunnerSteps.DispatchDecided | src/seo_orchestrator/db/repositories.py:1159-1259 | A dispatch is granted exactly if the attempt is queued, or runs in the dispatching stage, and its row is new, or was submitted and is free; a queued job then runs, dispatching, and its log says so |
| RunnerSteps.LookupClaimDecided | src/seo_orchestrator/db/repositories.py:1342-1379 | A canceled dispatch may be looked up exactly while its row is unanswered and free |
| RunnerSteps.SubmitDecided | src/seo_orchestrator/executors/mock.py:168-260 | A submission returns the run stored under its key; without one it starts one, unless no approved window is open; no table changes |
| RunnerSteps.LookupDecided | src/seo_orchestrator/executors/mock.py:338-365 | A lookup finds what is stored under the key, and starts nothing |
| RunnerSteps.RecordDecided | src/seo_orchestrator/runner.py:833-880 | A received run is recorded exactly if it was accepted inside the authority of the job, the caller holds an unaccepted row, and no other row accepted that run; a run found for a canceled dispatch only while the job still is one |
| RunnerSteps.CancelDecided | src/seo_orchestrator/executors/mock.py:378-396 | A cancellation marks exactly the run that the row accepted, and nothing if the provider has another one |
| RunnerSteps.CanceledDecided | src/seo_orchestrator/db/repositories.py:2126-2151 | A confirmed cancellation ends the row of its holder as canceled, at the time it first ended, unless the run ended in another way before |
| RunnerStall.StalledRunnerOverspends | src/seo_orchestrator/services/jobs.py:618-658 | A concrete run of two runners from empty tables: one records a charged failure and stalls, the other applies it, requeues and dispatches the next attempt, and the first then fails that attempt with the old outcome; two attempts are used up on one charge, although every step before the misapplied one meets the guard |
| RunnerRetries.RetryBudgetsHold | src/seo_orchestrator/db/repositories.py:1272-1302 | In every state reachable by one runner, the service and crashes: submission and cancel failures stay within the limit, a poll stage passes it by at most one and only with an attempt that ended final, and attempts used up never outnumber charged poll failures |
| RunnerRetries.SoloIsGuarded | src/seo_orchestrator/runner.py:1787-1856 | A runner that works alone meets the guard at every step of every run |
| RunnerRows.RunsShaped | src/seo_orchestrator/db/migrations.py:472-647 | In every reachable state, for any number of runners, a row with a status has an acceptance, a result comes only with an ended run, submitted rows were submitted to this executor, and a job past approval has its approval and was not superseded |
| RunnerRows.StepIsOneOp | src/seo_orchestrator/runner.py:539-1785 | Every step of the protocol is at most one transaction of the repository or the service |
| RunnerRows.PerformKeepsShapes | src/seo_orchestrator/db/migrations.py:472-647 | Every such transaction keeps these shapes |
| RunnerFencing.FencedForever | src/seo_orchestrator/db/repositories.py:1115-1259 | Once a row is leased under another token, then over any sequence of calls without a new claim under the old token the row never carries it again and every call presenting it changes nothing |
| RunnerFencing.OutcomeNeedsLease | src/seo_orchestrator/db/repositories.py:1304-1606 | External identity, status and result of a row change only in a call on that row presenting the token of its current lease |
| RunnerFencing.LeaseTakenByClaim | src/seo_orchestrator/db/repositories.py:1115-1157 | A lease changes hands only in a claim, and only when it was free or expired at the claim's clock |
| RunnerFencing.WrongTokenIsRefused | src/seo_orchestrator/db/repositories.py:1304-2206 | A call presenting a token the row does not hold changes no table |
| RunnerFencing.LifecycleForward | src/seo_orchestrator/db/migrations.py:586-647 | Across one call rows never disappear, the external status only moves forward, from none to accepted to running to an end, and identity, submission time, acceptance and result are written once |
| RunnerFencing.CallKeepsRows | src/seo_orchestrator/db/migrations.py:472-511 | Every call keeps the CHECK constraints of every run row |
| RunnerFencing.RowsConstrained | src/seo_orchestrator/db/migrations.py:472-647 | In every run of calls: keys are those of their attempts, executor and submission come together, an acceptance lies between submission and observation, and no two rows of one executor accepted one run |
| RunnerFencing.CallKeepsOwners | src/seo_orchestrator/db/migrations.py:586-647 | Every call keeps accepted runs with one row |
| RunnerFencing.RowAfter | src/seo_orchestrator/db/repositories.py:1115-2206 | An existing row is untouched, or updated as its SET clause says past the WHERE clause and every trigger |
| RunnerFencing.RowInserted | src/seo_orchestrator/db/repositories.py:1159-1259 | A new row is the inserted one, updated once at most |
| RunnerEffects.CallEffects | src/seo_orchestrator/db/repositories.py:1115-2314 | Every repository call keeps row constraints, audit logs and one active job per creator, leaves every other row, job, budget and log alone, and, unless it dispatches a submission, the state, attempt, approval and log of its own job |
| RunnerEffects.CallFenced | src/seo_orchestrator/db/repositories.py:1304-2206 | A call that presents a token takes effect only under the lease it names; otherwise it is answered No and changes nothing |
| RunnerEffects.TransitionMeans | src/seo_orchestrator/services/jobs.py:559-672 | A transition is granted exactly by the written-out conditions (edge of the graph that is not an approval, window open, code and stage not blank, records intact), and otherwise raises and changes nothing; a granted one logs its edge and moves every column as stated: reason and code on a failed target, both cleared on a retry, both kept otherwise, start and end set once, the stage given or kept; an active target leaves the job its creator's only active one |
| RunnerEffects.GraphIsAllowed | src/seo_orchestrator/domain/jobs.py:50-72 | The transition graph has exactly its fourteen edges, two of them only for approvals |
| RunnerEffects.MovedColumns | src/seo_orchestrator/services/jobs.py:600-658 | Every column of a job row after a move |
| RunnerEffects.ApproveGranted | src/seo_orchestrator/services/approvals.py:52-107 | When an approval is granted, written out |
| RunnerEffects.IdentityWritten | src/seo_orchestrator/db/repositories.py:1115-2235 | Which repository call writes which identity and outcome column of a run row, over all calls, and which of them keep the lease |
| RunnerEffects.ErrorsWritten | src/seo_orchestrator/db/repositories.py:1115-2235 | The error columns are written exactly by the calls that store a failure, and cleared by an acceptance and a status without one |
| RunnerEffects.ScheduleWritten | src/seo_orchestrator/db/repositories.py:1115-2235 | Stage, next action and reconciliation count over all calls: a parking call names its stage, takes the row off the schedule and counts |
| RunnerEffects.FailuresWritten | src/seo_orchestrator/db/repositories.py:1467-2124 | Failures in a row are counted per stage over all calls: a call in another stage starts over |
| RunnerEffects.JobRowWritten | src/seo_orchestrator/db/repositories.py:1781-2314 | A repository call other than a claim writes at most the stage and error columns of its own job, as stated |
| JobService.RunsAreAudited | src/seo_orchestrator/services/jobs.py:559-672 | Over any run of service and repository calls a job's transition log is a walk of the allowed graph from PLANNED to its state, its attempt is one more than its retry edges, its dispatches never outnumber its attempts, and an approval is bound exactly when one approval edge was taken |
| JobService.PerformKeepsAudit | src/seo_orchestrator/db/repositories.py:765-870 | Every operation keeps that for every job |
| JobService.TransitionKeepsAudit | src/seo_orchestrator/services/jobs.py:559-672 | A transition keeps every log a walk that explains state, attempt and approval |
| JobService.PlanKeepsAudit | src/seo_orchestrator/services/jobs.py:490-557 | So does planning, which starts a log and supersedes other jobs |
| JobService.ApproveKeepsAudit | src/seo_orchestrator/services/approvals.py:52-107 | So does approving |
| JobService.CallOnJobs | src/seo_orchestrator/db/repositories.py:1159-1259 | A repository call leaves states, attempts and logs alone, except that claiming a queued submission dispatches the job |
| JobService.WalkConserves | src/seo_orchestrator/domain/jobs.py:50-72 | In a walk every entry into a state is left again, except possibly the last |
| JobService.QueueCounts | src/seo_orchestrator/domain/jobs.py:50-72 | In a walk every entry into QUEUED is an approval or a retry |
| JobService.DispatchesBounded | src/seo_orchestrator/domain/jobs.py:50-72 | Dispatches never outnumber attempts, and without an approval there is none and the job is still pending |
| JobService.JobsForward | src/seo_orchestrator/db/migrations.py:213-326 | Across any operation jobs never disappear, logs only grow, approval and manifest are written once, superseded jobs are frozen and final states are final |
| JobService.PerformKeepsOneActive | src/seo_orchestrator/db/migrations.py:143-150 | At most one job of a creator is queued, running or retryable |
| JobService.NeverTwoActive | src/seo_orchestrator/db/migrations.py:143-150 | In every run from empty tables two jobs of one creator are never both queued, running or retryable |
| JobService.ServiceKeepsRuns | src/seo_orchestrator/services/jobs.py:490-672 | Only repository calls touch run rows and retry budgets |
| SuccessPath.CrashesDoNotMatter | src/seo_orchestrator/runner.py:1213-1279 | Once a polled success is recorded, whatever crashes, claims, decodings of the stored row, publications, bindings and releases follow in whatever order: nothing raises, and once the manifest is bound the run row, the job, its log, the budgets and the bundle are those of the uninterrupted poll up to the times written; the run row is equal exactly when no lease is left on it |
| SuccessPath.RecoveryCompletes | src/seo_orchestrator/runner.py:1630-1742 | From wherever the runner crashed, the next recovery runs through once the lease on the row is free, gives its own lease back and ends in the very row of the uninterrupted poll |
| SuccessPath.LeaseLeftBehind | src/seo_orchestrator/runner.py:1679-1742 | A recovery that crashes between binding the manifest and releasing leaves its lease on the row of a job that needs no recovery any more |
| SuccessPath.ReadyInRuns | src/seo_orchestrator/runner.py:938-1002 | Every run of the protocol with one runner that comes to a matching record of a success on a running job meets the premise of these theorems |
| SuccessPath.MoveAt | src/seo_orchestrator/runner.py:1213-1742 | Each move from each point of the path leads to exactly one point that is as far or further |
| SuccessPath.RecordAt | src/seo_orchestrator/runner.py:1213-1259 | Recording stores the bytes of the polled result in the row and leaves the runner with the result in memory |
| SuccessPath.RowDecodes | src/seo_orchestrator/runner.py:1690-1742 | At every point the recorded row passes every check of a recovery and decodes to the polled result |
| SuccessPath.SucceedRecovering | src/seo_orchestrator/runner.py:1690-1742 | Moving the job happens once, whichever path does it |
| SuccessPath.PublishAt | src/seo_orchestrator/services/artifacts.py:1174-1284 | Publication happens once, and a published bundle verifies again |
| SuccessPath.BindAt | src/seo_orchestrator/services/jobs.py:405-429 | Binding the manifest happens once, on either path |
| SuccessPath.ClaimAt | src/seo_orchestrator/db/repositories.py:1115-1157 | A claim of the row is refused or takes the lease and changes nothing else; it is granted when the lease is free and the expected job state fits |
| ExecutionResults.ResultRoundTrip | src/seo_orchestrator/executors/base.py:219-267 | A byte text is accepted as a certain result exactly when it is the encoding of that result: every valid result is read back as itself, and every accepted text re-encodes to itself |
| ExecutionResults.ResultFields | src/seo_orchestrator/executors/base.py:219-238 | The fields of a result by their names in its bytes |
| ExecutionResults.ResultBytesInjective | src/seo_orchestrator/executors/base.py:219-238 | Two results have the same bytes only if they are equal |
| SuccessExample.SuccessReached | src/seo_orchestrator/runner.py:938-1279 | A concrete run from empty tables comes to such a record, so the premise can be met, and the path ends with the manifest bound |
| RetryDelays.RetryPolicy.DelayFor | src/seo_orchestrator/runner.py:66-85 | The doubling loop computes the base delay doubled once per earlier retry, capped at the maximum |
| RetryDelays.RetryPolicy.constructor | src/seo_orchestrator/runner.py:48-64 | Keeps the checked delays |
| RunnerRepository.RunnerRepository.ClaimExistingRun | src/seo_orchestrator/db/repositories.py:1115-1157 | Granted exactly on a row in one of the states, at the job's current attempt, whose lease is free, expired or the caller's; never raises; the row returned carries the caller's lease and the outcome it had |
| RunnerRepository.RunnerRepository.ClaimSubmissionRun | src/seo_orchestrator/db/repositories.py:1159-1259 | Insert, lease and dispatch together or not at all; a granted claim leaves the job running at this attempt and the row under the caller's lease |
| RunnerRepository.RunnerRepository.RecordExternalAcceptance | src/seo_orchestrator/db/repositories.py:1304-1340 | Only under the lease, on a row without an acceptance; the row then has exactly this one, no other row of the executor has its run, and the lease is given up; otherwise nothing changed |
| RunnerRepository.RunnerRepository.ConsumeStageRetry | src/seo_orchestrator/db/repositories.py:1285-1302 | Exactly one budget grows, by one, and no other table changes |
| RunnerRepository.RunnerRepository.RecordSubmitTransportFailure | src/seo_orchestrator/db/repositories.py:1467-1502 | Granted exactly to the holder of an unanswered row, and never raises; the row is free and still unanswered, exactly the submission budget grows by one, and no job changes; otherwise nothing changed |
| RunnerRepository.RunnerRepository.RecordPoll | src/seo_orchestrator/db/repositories.py:1545-1606 | Only under the lease and on an open row; acceptance kept, result written once, exactly the named budget charged and only when asked, no job changed; otherwise nothing changed |
| RunnerRepository.RunnerRepository.RecordCanceledRun | src/seo_orchestrator/db/repositories.py:2126-2151 | Granted exactly to the holder of an accepted row that has not ended in another way; the acceptance is kept and the row freed; otherwise nothing changed |
| RunnerRepository.RunnerRepository.MarkClaimedReconciliationRequired | src/seo_orchestrator/db/repositories.py:1864-1912 | Parks every row its caller holds, with its outcome; the answer is Yes exactly when the job row still matched; never raises and charges nothing |
| RunnerRepository.RunnerRepository.Release | src/seo_orchestrator/db/repositories.py:2186-2206 | Granted exactly to the holder; the outcome is kept, and the row is claimable by anyone at any time |
| RunnerRepository.RunnerRepository.TransitionJob | src/seo_orchestrator/services/jobs.py:559-672 | Granted exactly by the written-out conditions; a granted one takes and logs the edge and moves every column of the job as the transition says, error columns, stage and times included; a refusal changes nothing; no other job, row or budget changes |
| RunnerRepository.RunnerRepository.ApproveJob | src/seo_orchestrator/services/approvals.py:52-107 | Granted exactly on an awaiting job that is intact, not superseded, not approved before, and whose creator has no other active job; it is then queued under this approval and nothing else of it changes; the approval edge is in its log exactly once |
| RunnerRepository.RunnerRepository.ClaimCanceledLookupRun | src/seo_orchestrator/db/repositories.py:1342-1379 | Granted exactly on an unanswered dispatch of a canceled job whose lease is free, expired or the caller's; never raises |
| RunnerRepository.RunnerRepository.RecordLookupAcceptanceForCanceled | src/seo_orchestrator/db/repositories.py:1381-1426 | The same for a run found by lookup after a cancellation: the job stays canceled |
| RunnerRepository.RunnerRepository.RecordPollTransportFailure | src/seo_orchestrator/db/repositories.py:1504-1543 | Granted exactly to the holder of an open accepted row, and never raises; outcome kept, row free to be polled again, exactly the stage's budget charged |
| RunnerRepository.RunnerRepository.ReconcilePoll | src/seo_orchestrator/db/repositories.py:1608-1666 | Granted exactly on a free row of a canceled job, open or settled as asked; it is never polled again, keeps its outcome, and a settled one is parked |
| RunnerRepository.RunnerRepository.ReconcileTerminal | src/seo_orchestrator/db/repositories.py:1668-1701 | Granted exactly on a settled row of a canceled job whose lease is free, which is parked with its outcome |
| RunnerRepository.RunnerRepository.ReconcileClaimedTerminal | src/seo_orchestrator/db/repositories.py:1703-1739 | Granted exactly to the holder of an ended row of a canceled job, which is parked with its outcome |
| RunnerRepository.RunnerRepository.RecordExhaustedPoll | src/seo_orchestrator/db/repositories.py:1741-1779 | Granted exactly to the holder of an open row of a canceled job; it stays open, is free and off the schedule, and no budget is charged |
| RunnerRepository.RunnerRepository.MarkPollReconciliationRequired | src/seo_orchestrator/db/repositories.py:1781-1819 | Granted exactly when the holder's open row belongs to a running job at its current attempt; the row is parked with its outcome even when the job no longer matches, uncharged |
| RunnerRepository.RunnerRepository.MarkRetryTaken | src/seo_orchestrator/db/repositories.py:1821-1843 | Granted exactly to the holder of a retryable row, which stays retryable, is free and is off the schedule |
| RunnerRepository.RunnerRepository.UpdateStage | src/seo_orchestrator/db/repositories.py:1845-1862 | Granted exactly while the job runs this attempt and is not superseded; no run row and no budget changes |
| RunnerRepository.RunnerRepository.MarkObservedReconciliationRequired | src/seo_orchestrator/db/repositories.py:1914-1957 | Parks exactly the accepted rows, whoever holds them; the answer is Yes exactly when the job row still matched |
| RunnerRepository.RunnerRepository.MarkClaimedCancelLookupReconciliation | src/seo_orchestrator/db/repositories.py:1428-1465 | Parks the holder's unanswered row; the answer is Yes exactly when the job is canceled at this attempt |
| RunnerRepository.RunnerRepository.QuarantineDispatch | src/seo_orchestrator/db/repositories.py:1959-2004 | Parks exactly the unanswered rows whose lease is free; the answer is Yes exactly when the job is still dispatching |
| RunnerRepository.RunnerRepository.QuarantineQueuedJob | src/seo_orchestrator/db/repositories.py:2237-2314 | Granted only while the job is queued; the row, inserted if it was missing, is then parked, unanswered and free; otherwise nothing changed |
| RunnerRepository.RunnerRepository.BeginCancelStage | src/seo_orchestrator/db/repositories.py:2019-2047 | Granted exactly to the holder of an open row, who keeps the lease; outcome, jobs and budgets are kept |
| RunnerRepository.RunnerRepository.RecordCancelTransportFailure | src/seo_orchestrator/db/repositories.py:2049-2084 | Granted exactly to the holder of an accepted row that is not canceled; outcome kept, row freed, exactly the cancel budget charged |
| RunnerRepository.RunnerRepository.MarkKnownCancelReconciliationRequired | src/seo_orchestrator/db/repositories.py:2086-2124 | Parks the holder's accepted row that is not canceled; the answer is Yes exactly when the job is canceled at this attempt |
| RunnerRepository.RunnerRepository.MarkCancelReconciliationRequired | src/seo_orchestrator/db/repositories.py:2153-2184 | Parks exactly the never accepted rows whose lease is free; the answer is Yes exactly when the job is canceled at this attempt |
| RunnerRepository.RunnerRepository.MarkReconciliationRequired | src/seo_orchestrator/db/repositories.py:2208-2235 | Granted only while the job runs this attempt; an existing row stays as it was, and a refused call takes its insert back |
| RunnerRepository.RunnerRepository.PlanJob | src/seo_orchestrator/services/jobs.py:490-557 | Granted exactly when the job id is new; the job is fresh in every column, its log is the one planning edge, and of the other jobs exactly the creator's pending ones in the company become superseded while nothing else of them changes |
| RunnerRepository.RunnerRepository.BindArtifactManifest | src/seo_orchestrator/services/jobs.py:405-429 | A bound manifest never changes: the answer is then Yes exactly for the same path and nothing is written; a new one is bound only to a verified, succeeded job that was not superseded, and changes nothing else |
| ExportProtocol.ExactlyOnce | src/seo_orchestrator/services/exports.py:466-782 | In every interleaving of prepare, approve and execute calls with crashes: at most one receipt per job and never beside an open attempt, every write for a job carries the same approved request, the backend holds at most one row for it, and every caller was handed the same receipt |
| ExportProtocol.ClaimIsForever | src/seo_orchestrator/db/migrations.py:745-791 | A claim and the plan it pins outlive everything that follows |
| ExportProtocol.RunsKeep | src/seo_orchestrator/services/exports.py:297-782 | Every reachable state keeps the export invariant |
| ExportProtocol.PrepareGrows | src/seo_orchestrator/services/exports.py:297-364 | Preparing keeps the tables consistent, and claims with the plans they pin |
| ExportProtocol.ApproveGrows | src/seo_orchestrator/services/exports.py:421-464 | Approving keeps the tables consistent, and claims with the plans they pin |
| ExportProtocol.ClaimGrows | src/seo_orchestrator/services/exports.py:542-672 | Claiming keeps the tables consistent, and claims with the plans they pin |
| ExportProtocol.ClaimPins | src/seo_orchestrator/services/exports.py:542-672 | A granted claim pins exactly the request that the caller was handed, and a persisted answer is a stored receipt with nothing changed |
| ExportCells.WrittenAsClaimed | src/seo_orchestrator/services/exports.py:397-420 | In every interleaving, every request a caller holds or that was ever written was handed out by a claim and carries, cell by cell, what the target selected from the artifact the job had at that claim, under an approval of that plan; the backend stores nothing that was not written |
| ExportCells.ReceiptsTell | src/seo_orchestrator/services/exports.py:584-616 | In every run a stored receipt tells of the row the backend has under its key, for its job, at its destination and time, and every answered call returned a stored receipt |
| ExportCells.PrepareDecided | src/seo_orchestrator/services/exports.py:297-364 | Preparing is refused exactly for its cause; otherwise the plan for this target over this artifact is stored as the latest one, unless it was stored before |
| ExportCells.CellsSelected | src/seo_orchestrator/services/exports.py:317-327 | Cells exist exactly if no source is missing; they hold, for exactly the columns of the target, the values under their sources, and are refused exactly if one starts like a formula |
| ExportCells.CurrentDecided | src/seo_orchestrator/services/exports.py:366-419 | The current plan is the latest one, exactly if it is still the plan for its target over the artifact of this moment |
| ExportCells.ApproveDecided | src/seo_orchestrator/services/exports.py:421-464 | An approval is refused exactly if the plan is not current, or is new and its identifier is taken; otherwise it is the stored one or one new row |
| ExportCells.ClaimDecided | src/seo_orchestrator/services/exports.py:542-672 | When a claim is granted, and what it hands out and leaves behind |
| ExportCells.PersistDecided | src/seo_orchestrator/services/exports.py:674-773 | A receipt is stored exactly by the open attempt of the claim, once, and an equal stored one is returned |
| ExportCells.WriteDecided | src/seo_orchestrator/services/exports.py:226-244 | A write stores the first request under its key, even if the call raises afterwards; the caller goes on with a confirming receipt, and has failed otherwise |
| ExportCells.LookupDecided | src/seo_orchestrator/services/exports.py:471-492 | A lookup without a row ends the call, or gives the attempt up if the write raised; a row of another request is an error |
| ExportCells.ReleaseDecided | src/seo_orchestrator/services/exports.py:775-782 | Giving an attempt up drops it exactly if it is still the open one |
| ExportCells.AnswerDecided | src/seo_orchestrator/services/exports.py:584-616 | A call for a stored receipt returns it exactly if the backend still confirms it |
| ExportProtocol.WriteKeeps | src/seo_orchestrator/services/exports.py:226-244 | A backend write, however it ends for its caller, keeps the invariant |
| ExportProtocol.PersistKeeps | src/seo_orchestrator/services/exports.py:674-773 | Persisting a receipt consumes the attempt and keeps the invariant |
| ExportProtocol.ReleaseKeeps | src/seo_orchestrator/services/exports.py:775-782 | Releasing an attempt keeps the invariant |
| ExportModel.FirstApproval | src/seo_orchestrator/services/exports.py:421-464 | Finds an approval of the job and plan exactly when there is one |
| ExportModel.ApprovalById | src/seo_orchestrator/services/exports.py:542-564 | Finds an approval by its identifier exactly when there is one |
| ExportModel.FirstReceipt | src/seo_orchestrator/services/exports.py:584-616 | Finds a receipt of the approval exactly when there is one |
| ExportService.MockSheetExportBackend.WriteRow | src/seo_orchestrator/services/exports.py:226-244 | In place; stored rows never change and the returned receipt is what a lookup then finds |
| ExportService.ExportService.PrepareExport | src/seo_orchestrator/services/exports.py:297-364 | Refused exactly for one of five named causes (not exportable, a missing source, claimed under another fingerprint, a formula-like cell, not the current plan), changing nothing; otherwise the plan has the asked target and the hash of the artifact, and its cells are, for exactly the columns of the target, the values the artifact holds under their sources; it is the current plan, and claims stay pinned |
| ExportService.ExportService.ApproveExport | src/seo_orchestrator/services/exports.py:421-464 | Granted only for the current plan of the job; the answer is a stored approval of it, and asking again under any identifier gives the same one and stores nothing |
| ExportService.ExportService.ClaimExportLocked | src/seo_orchestrator/services/exports.py:542-672 | Granted exactly to an approval of the current plan while nobody else has the job and no foreign receipt is stored; the request returned carries, cell by cell, the values of the artifact of this moment, the job is pinned to it, and the attempt is open under this approval, the caller's own to write exactly when there was none before; a refusal changes nothing |
| ExportService.ExportService.PersistReceiptLocked | src/seo_orchestrator/services/exports.py:674-773 | Keeps the tables consistent and every claim pinned; a returned receipt is stored and no attempt of the job is open any more; a refusal changes nothing |
| ExportService.ExportService.ReleaseAttemptLocked | src/seo_orchestrator/services/exports.py:775-782 | Granted exactly for the open attempt itself; the attempt is gone and cannot be given up again, and no claim, plan, approval, receipt or other attempt changes |
| ObjectGraph.Preflight | src/seo_orchestrator/canonical.py:50-109 | The traversal ends on every heap graph, cyclic ones included, accepts exactly the values that unfold within the depth limit to at most the allowed nodes and string bytes, returns that unfolding, and reports a cycle only where there is one |
| ObjectGraph.Normalize | src/seo_orchestrator/canonical.py:50-97 | On success the unfolding and its exact cost in nodes and bytes; on failure the value does not unfold or the budget is too small; the active set is restored |
| ObjectGraph.NormalizeContainer | src/seo_orchestrator/canonical.py:67-97 | The same for a list or dictionary already counted; a container met again on the path closes a cycle |
| ObjectGraph.NormalizeItems | src/seo_orchestrator/canonical.py:77-83 | The list loop computes the unfolding of the items and their exact cost |
| ObjectGraph.NormalizeEntries | src/seo_orchestrator/canonical.py:84-95 | The dictionary loop computes the unfolding of the entries and their exact cost |
| ObjectGraph.NormalizeEntry | src/seo_orchestrator/canonical.py:85-94 | One entry: the key is counted as a node and as bytes before its value |
| ObjectGraph.ValidationState.VisitNode | src/seo_orchestrator/canonical.py:29-32 | Counts one node and says whether the limit still holds |
| ObjectGraph.ValidationState.VisitString | src/seo_orchestrator/canonical.py:34-47 | The chunk loop passes exactly the encodable texts that fit the remaining budget and adds their UTF-8 length |
| ObjectGraph.WidthIsEncoded | src/seo_orchestrator/canonical.py:34-47 | The width counted for a code point is the length of its UTF-8 encoding, which reads back |
| ObjectGraph.ScalarIsCharacter | src/seo_orchestrator/canonical.py:34-47 | The code points that can be encoded are those of characters |
| ObjectGraph.CycleFound | src/seo_orchestrator/canonical.py:72-75 | A container that is active when it is met lies on a cycle of the graph and does not unfold |
| ObjectGraph.CyclicRefused | src/seo_orchestrator/canonical.py:50-97 | A container on a cycle unfolds at no depth |
| ObjectGraph.ReachedCycleRefused | src/seo_orchestrator/canonical.py:50-97 | Nor does a container that leads to a cycle |
| ObjectGraph.LongChainRefused | src/seo_orchestrator/canonical.py:50-97 | No container at the top of a chain longer than the depth limit unfolds |
| CanonicalJson.PrintInjective | src/seo_orchestrator/canonical.py:100-123 | Two values have the same canonical text exactly when they are equal as JSON with unordered objects |
| CanonicalJson.LoadsPrint | src/seo_orchestrator/canonical.py:100-123 | Parsing the canonical text of any value gives the value back |
| CanonicalText.OneCanonicalText | src/seo_orchestrator/canonical.py:100-123 | The printed text of a value is canonical by the grammar (no white space, one spelling for every character, keys strictly increasing, integers without leading zeros or minus zero) and reads as the value, and no other text does both; every canonical text reads as some value |
| CanonicalText.PrintIsCanonical | src/seo_orchestrator/canonical.py:110-116 | Every printed text is canonical |
| CanonicalText.CanonicalIsPrinted | src/seo_orchestrator/canonical.py:110-116 | Every canonical text is the printed text of a value |
| CanonicalText.EscapeSpells | src/seo_orchestrator/canonical.py:110-116 | Every character is printed in its one spelling: short escapes for seven of them, lower-case units for the other controls, and itself otherwise |
| CanonicalText.SpellingIsEscape | src/seo_orchestrator/canonical.py:110-116 | Every such spelling is that of some character |
| CanonicalText.IntegerIsText | src/seo_orchestrator/canonical.py:110-116 | Integers are printed without leading zeros, and zero without a sign |
| JsonText.LoadsDecided | src/seo_orchestrator/domain/approvals.py:159-188 | The reader accepts exactly the JSON texts with integer numbers, with any white space and any spelling of a character, as exactly the values they denote |
| JsonText.CharsSpelled | src/seo_orchestrator/domain/approvals.py:159-188 | What is read as a string is a spelling of it, character by character |
| JsonText.LastValueStays | src/seo_orchestrator/domain/approvals.py:159-188 | A repeated key keeps its last value |
| CanonicalJson.ValueReads | src/seo_orchestrator/canonical.py:110-116 | Reading a printed value inside any text gives it back and leaves what follows alone |
| CanonicalJson.KeysSorted | src/seo_orchestrator/canonical.py:110-116 | Object keys are printed strictly increasing, each once |
| CanonicalJson.SortedKeys | src/seo_orchestrator/canonical.py:110-116 | The key list holds exactly the keys of the object |
| CanonicalJson.StringReads | src/seo_orchestrator/canonical.py:110-116 | A printed string is read back inside any text (its one spelling is CanonicalText.OneCanonicalText) |
| CanonicalJson.EscapeReads | src/seo_orchestrator/canonical.py:110-116 | A printed character is read back inside any string (its one spelling is CanonicalText.EscapeSpells) |
| CanonicalJson.IntReads | src/seo_orchestrator/canonical.py:110-116 | A printed integer is read back |
| CanonicalPlan.SameTextSameTree | src/seo_orchestrator/canonical.py:100-123 | Two encodable object graphs have the same canonical text exactly when they unfold to the same value; neither sharing nor dictionary order shows |
| CanonicalPlan.CanonicalDecided | src/seo_orchestrator/canonical.py:100-123 | The encoder writes a text exactly if the object unfolds within the node and byte limits and the text is the one canonical text that reads as its unfolding and fits the byte limit itself |
| CanonicalPlan.PlanRoundTrip | src/seo_orchestrator/domain/approvals.py:115-188 | Deserializing the canonical bytes of any plan gives the plan back |
| CanonicalPlan.PlanAccepted | src/seo_orchestrator/domain/approvals.py:159-188 | A text is accepted, as a certain plan, exactly if it reads as the ten fields of that plan and no other, each of its own type |
| CanonicalPlan.PlanFields | src/seo_orchestrator/domain/approvals.py:115-129 | The fields of a plan by their names in its bytes |
| CanonicalPlan.PlanTextInjective | src/seo_orchestrator/domain/approvals.py:131-139 | Two plans have the same canonical bytes exactly when they are equal |
| CanonicalPlan.MappingValue | src/seo_orchestrator/domain/approvals.py:115-129 | Each field of the plan is stored under its own name |
| Notifications.SinkIsSafe | src/seo_orchestrator/services/notifications.py:469-664 | In every interleaving of sends and closes no two threads deliver one key, receipts report only acknowledged payloads, the tables stay within their bounds, and the client is closed only with no active send |
| NotificationSends.SendDelivers | src/seo_orchestrator/services/notifications.py:493-664 | One send by itself, from any state: one call for the payload goes out under a delivery of its own; if it succeeds it is acknowledged, stored as delivered and answered with a receipt, otherwise stored as failed; every slot is free again |
| NotificationSends.SendAnswers | src/seo_orchestrator/services/notifications.py:564-586 | A payload delivered before is answered with a receipt and nothing goes out; another payload under its key, or a new key beyond the limit, is refused; neither leaves a trace |
| NotificationSends.SendWithoutTransport | src/seo_orchestrator/services/notifications.py:619-664 | Without a transport slot nothing goes out and the delivery is stored as failed |
| NotificationSends.SendWaits | src/seo_orchestrator/services/notifications.py:564-612 | A payload that another thread is delivering is waited for |
| NotificationSends.WaitDecided | src/seo_orchestrator/services/notifications.py:602-618 | A waiting thread is woken by the signal alone and answers with a receipt exactly if that delivery succeeded |
| NotificationSends.SendRefused | src/seo_orchestrator/services/notifications.py:493-528 | Without a request slot, once closing has begun, or for an event outside the catalog, a send leaves no trace |
| NotificationSends.CloseAlone | src/seo_orchestrator/services/notifications.py:469-491 | Closing an idle sink closes the client and publishes it |
| NotificationSends.CloseWaits | src/seo_orchestrator/services/notifications.py:469-491 | The client stays open while a send is active, and a second closer waits for the first |
| Notifications.RunsKeep | src/seo_orchestrator/services/notifications.py:469-664 | Every reachable state keeps the invariant behind it |
| Notifications.StepCore | src/seo_orchestrator/services/notifications.py:530-664 | Every step keeps the agreement between threads, delivery states and the key table |
| Notifications.StepCounts | src/seo_orchestrator/services/notifications.py:493-528 | The counters always equal the numbers of threads inside a send, holding a slot and holding a transport |
| Notifications.StepBounds | src/seo_orchestrator/services/notifications.py:564-586 | Every step keeps the tracked keys and both pools within their limits |
| Notifications.StepDrains | src/seo_orchestrator/services/notifications.py:469-491 | Every step keeps the draining discipline of close |
| Notifications.DecideCore | src/seo_orchestrator/services/notifications.py:564-600 | The critical section over the key table keeps that agreement on every branch |
| Notifications.MarkCore | src/seo_orchestrator/services/notifications.py:676-685 | Marking the outcome of a delivery keeps that agreement |
| Notifications.RespondCore | src/seo_orchestrator/services/notifications.py:619-640 | The end of an HTTP exchange keeps that agreement |
| Notifications.DeliveredIsFinal | src/seo_orchestrator/services/notifications.py:564-664 | A delivered key keeps its entry, status and payload forever and no later step starts a request for it |
| Notifications.PayloadIsFixed | src/seo_orchestrator/services/notifications.py:564-664 | The payload hash of a key never changes, whatever happens to its deliveries |
| Notifications.ClosedIsSilent | src/seo_orchestrator/services/notifications.py:469-491 | After the client is closed no request starts and no send is admitted |
| Callbacks.ConsumedOnce | src/seo_orchestrator/services/callbacks.py:29-91 | With a nondecreasing clock, among acceptances that finish while the signature could still verify each signed nonce and timestamp is consumed at most once although expired nonces are pruned; each receipt key, and so each signature, is accepted at most once whenever it comes back |
| Callbacks.ReplayedExactlyWhenPruned | src/seo_orchestrator/db/repositories.py:2387-2412 | A used signature that comes back is let through exactly when its nonce row is gone or outlived, which takes until the signature is stale |
| Callbacks.LateAcceptanceReplays | src/seo_orchestrator/services/callbacks.py:48-91 | A concrete run of interleaved requests in which two copies of one signed callback both consume its nonce, the second after the signature went stale; the second is answered as a duplicate |
| Callbacks.StepKeeps | src/seo_orchestrator/security/signatures.py:95-125 | Every arrival, verification and acceptance keeps the replay invariant |
| Callbacks.ConsumeKeeps | src/seo_orchestrator/db/repositories.py:2387-2412 | Pruning spares every row that expires later, and a spared nonce is refused |
| Callbacks.CallbackService.ConsumeNonce | src/seo_orchestrator/db/repositories.py:2387-2412 | In place; succeeds exactly when the nonce is unknown or expired by the receipt time |
| Callbacks.CallbackService.AcceptCallback | src/seo_orchestrator/services/callbacks.py:57-91 | A rejection leaves both tables alone; an acceptance is of an active job and a new receipt; otherwise the receipt is stored and the nonce in use |
| Callbacks.AcceptDecided | src/seo_orchestrator/services/callbacks.py:57-91 | A callback is rejected, and nothing stored, exactly if it does not name its own job and the hash of that job, its nonce is in use, or it comes first for a job that is not active; otherwise its nonce is used until 301 seconds past the later of the signed and the receipt time, what expired is dropped, and its receipt is there |
| Callbacks.VerifyDecided | src/seo_orchestrator/security/signatures.py:95-125 | A request is verified exactly while the clock is inside the skew window of its signed second and its nonce is unknown |
| Callbacks.FinishDecided | src/seo_orchestrator/services/callbacks.py:57-91 | A verified request is finished by accepting it, whatever happened since |
| UtcText.TextOrderIsTimeOrder | src/seo_orchestrator/db/connection.py:106-120 | For all instants, byte order of their canonical UTC texts is chronological order, although microseconds are omitted when zero |
| UtcText.TextsDiffer | src/seo_orchestrator/db/connection.py:106-120 | Two instants have the same canonical text exactly when they are equal, and so for their place in time |
| UtcText.TextSpells | src/seo_orchestrator/db/connection.py:106-120 | Where each field of an instant stands in its text |
| UtcText.YearsCounted | src/seo_orchestrator/db/repositories.py:989-1003 | The days before a year in closed form |
| UtcText.MonthsCounted | src/seo_orchestrator/db/repositories.py:989-1003 | The days before each month, and the leap day |
| UtcText.TicksOrdered | src/seo_orchestrator/db/repositories.py:989-1003 | Instants are ordered by day number and then by the time of day |
| UtcText.DatesOrdered | src/seo_orchestrator/db/repositories.py:989-1003 | An earlier calendar date has a smaller day number, across months, leap days and years |
| Briefs.UpdateKeepsHierarchy | src/seo_orchestrator/services/briefs.py:147-274 | Whatever an update asks for, the draft it produces is consistent with the catalogs again, exactly one version later, by the same creator and unvalidated |
| Briefs.UpdateDecided | src/seo_orchestrator/services/briefs.py:147-274 | What an update refuses, in the order of its checks, and every column it stores otherwise: supplied fields are stored or removed by an explicit null, all others kept, but for the two that belong to the hierarchy when it changes |
| Briefs.ContentDecided | src/seo_orchestrator/services/briefs.py:246-264 | Each supplied content field is stored as supplied or removed, every other one kept |
| Briefs.ValidateDecided | src/seo_orchestrator/services/briefs.py:276-336 | What validation refuses, in the order of its checks, and that it stores the same draft, validated, one version later |
| Briefs.CompleteIsOwned | src/seo_orchestrator/services/briefs.py:276-336 | A consistent draft that names a direction and an audience passes the ownership checks of validation |
| Briefs.SnapshotOwned | src/seo_orchestrator/services/snapshots.py:41-66 | The ownership checks of snapshot compilation cannot fail on a validated draft, even after the catalogs have grown |
| Briefs.GrowthKeeps | src/seo_orchestrator/db/repositories.py:176-330 | Appending versions or archiving companies breaks no draft |
| Briefs.BriefService.StartBrief | src/seo_orchestrator/services/briefs.py:121-134 | Started exactly for a company that is not archived and has a profile, under a new identifier; the draft is the empty first version under the newest profile |
| Briefs.BriefService.UpdateBrief | src/seo_orchestrator/services/briefs.py:147-274 | In place over an unchanged draft; a draft changed meanwhile is a version conflict and nothing is stored |
| Briefs.BriefService.ValidateBrief | src/seo_orchestrator/services/briefs.py:276-336 | In place; on stored drafts the not-found error of the ownership checks cannot occur |
| Briefs.BriefService.Commit | src/seo_orchestrator/db/repositories.py:434-464 | Compare-and-swap on the draft that was read |
| Briefs.BriefService.CurrentProfile | src/seo_orchestrator/db/repositories.py:206-220 | The loop finds the newest profile version |
| Briefs.BriefService.AddProfile | src/seo_orchestrator/db/repositories.py:176-190 | Appends a profile version and keeps every draft consistent |
| Briefs.BriefService.AddDirection | src/seo_orchestrator/db/repositories.py:245-260 | Appends a direction version unless it exists and keeps every draft consistent |
| Briefs.BriefService.AddAudience | src/seo_orchestrator/db/repositories.py:292-308 | Appends an audience version unless it exists and keeps every draft consistent |

## Left out

- LedgerAgreement.RunsAgree: the event type and details of the stored bodies are compared as values, because texts that are not the canonical encoding of a value are one constructor of the text columns.
- LedgerOutcomes.AbortedByCollision: one direction only; whether a collision aborts depends on which of the colliding rows is inserted first and on the check that precedes it.
- LedgerOutcomes.BindDecided: assumes that prompt headings and instruction texts begin and end with visible characters, because an empty prompt would refuse the next packet.
- LedgerTheorems.SameHeadSameLedger: speaks of one job's tables; nothing ties the ledgers of different jobs together in the source.
- RunnerAgreement.RunsAgree: the provider is the durable mock executor; a provider that loses entries is outside the model.
- RunnerRetries.RetryBudgetsHold: one runner, because with two it is false (RunnerStall.StalledRunnerOverspends).
- RunnerAccounts.BudgetsHold: that a claim draws a token no other runner remembers is part of the guard; the token factory is a parameter of the source.
- RunnerFencing.FencedForever: lease tokens are compared as texts, and that a runner draws a fresh one is a premise.
- SuccessPath.CrashesDoNotMatter: one runner, no local cancellation in between, and the job's own manifest path; the reason text of the audit row, which differs between the two paths, is not a column of the model.
- SuccessPath.ReadyInRuns: a provider stage text of white space only is refused by the job transition, and a provider stage text equal to a reserved one, which parks the row from the scheduler, is not distinguished.
- ExecutionResults.ResultRoundTrip: the validity rules of a result, the encoder's budget and the check of its usage against the plan are parameters.
- RetryDelays.RetryPolicy.DelayFor: the identity jitter and real numbers, because rounding is not the point.
- ExportProtocol.ExactlyOnce: the backend is the mock sheet; other backends are covered only as far as they behave like it.
- CanonicalPlan.PlanTextInjective: the byte limit of the encoder is not applied to plans, which are far below it.
- Callbacks.ConsumedOnce: for nonces, acceptances that finish after the signature went stale are excluded, because for them it is false (LateAcceptanceReplays). Two requests carry one signature when key, nonce and timestamp agree; the model lets one nonce and timestamp sign several keys, which the HMAC would forbid.
- UtcText.TextOrderIsTimeOrder: years 1 to 9999, which is all that the datetime type has.
- Briefs.BriefService.ValidateBrief: the content rules of a brief are one flag.
- Ledger rows of a job without a job row, and columns of a wrong storage class, are not represented.
- The stage payload schema, the evidence commitments and the key and state files of the ledger are parameters or absent.
- Heartbeats, `updated_at` columns, quarantine of malformed timestamps, and the executor capability and identity comparisons of the runner are not modelled; steps that they would forbid are allowed.
- The order in which `tick` selects work is nondeterministic here, and no progress is claimed: a quarantined and then canceled job is selected (`src/seo_orchestrator/db/repositories.py:1056`) but never claimed (`src/seo_orchestrator/db/repositories.py:1362`).
- The runner's methods and the sink's `send` and `close` are the steps between their transactions and critical sections, not methods. Calls that only park a row, give a lease back or note a stage are steps that any runner may take at any time, while the source takes them in specific branches.
- What `json.loads` accepts beyond integers (other numbers, `NaN`, `Infinity`) and beyond characters (lone surrogates) is not read; no canonical text contains either.
- HTTP requests, signing and the event catalog behind the notification sink are nondeterministic outcomes; a process crash loses the sink's state and is not modelled.
- Signature comparison in callbacks, and the job lookup behind them, are parameters of the step.
- Bundle files, directory modes and staging names: publication is one atomic rename that never replaces.
- FastAPI routes, the Hermes client, the n8n executor and integration, URL normalization, secret detection, `staged_mock.py`, `company_cards.py` and `settings.py`: transport, library behaviour, or easy.
