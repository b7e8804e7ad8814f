/**
 The tables behind the durable job runner, with their CHECK constraints and triggers as guards, and
 every statement of the runner repository as a guarded update of one run row. Timestamps are
 instants: their canonical text form orders the same way (see `UtcText`).
 */
module RunnerTables {
  import opened Texts

  type Time = int

  datatype JobState =
    | DraftState | Validated | Planned | AwaitingPaidApproval | Queued | Running | FailedRetryable | FailedFinal
    | Canceled | Succeeded | AwaitingExportApproval | Exported

  datatype External = XAccepted | XRunning | XSucceeded | XFailedRetryable | XFailedFinal | XCanceled

  predicate Terminal(s: External) {
    s.XSucceeded? || s.XFailedRetryable? || s.XFailedFinal? || s.XCanceled?
  }

  /** Stage text as stored: one of the reserved names, or any other text. */
  datatype Stage =
    | Dispatching | AcceptedStage | Canceling | CancelRetryPending
    | ReconciliationRequired | CancelReconciliationRequired | Named(raw: string)

  datatype RetryStage = Submission | Poll(stage: string) | CancelStage

  datatype JobKey = JobKey(company: string, job: string)

  datatype RunKey = RunKey(job: JobKey, attempt: int)

  datatype Acceptance = Acceptance(runId: string, acceptedAt: Time, observedAt: Time)

  datatype Lease = Lease(token: string, expires: Time)

  datatype Payload = Payload(json: string, hash: string)

  datatype Failure = Failure(code: string, summary: string)

  /** One row of `job_execution_runs`; columns that a CHECK ties together share one field. */
  datatype Run = Run(
    key: string, executor: Option<string>, submittedAt: Option<Time>, ext: Option<Acceptance>, status: Option<External>,
    stage: Option<Stage>, nextAt: Option<Time>, completedAt: Option<Time>,
    errorCode: Option<string>, errorSummary: Option<string>, result: Option<Payload>, lease: Option<Lease>,
    reconciliations: nat, retryStage: RetryStage, failures: nat)

  /** The immutable window of the one paid approval a job can be bound to. */
  datatype Window = Window(id: string, approvedAt: Time, expires: Option<Time>)

  datatype Job = Job(
    state: JobState, stage: Option<Stage>, attempt: int, started: Option<Time>, finished: Option<Time>,
    errorCode: Option<string>, errorSummary: Option<string>, approval: Option<Window>, superseded: bool,
    artifact: Option<string>, creator: string, maxRetries: nat)

  datatype Edge = Edge(from: Option<JobState>, to: JobState)

  datatype Db = Db(
    jobs: map<JobKey, Job>, runs: map<RunKey, Run>, budgets: map<(JobKey, RetryStage), nat>,
    logs: map<JobKey, seq<Edge>>)

  /** How a call ends: a row matched, no row matched, or the statement raised and rolled back. */
  datatype Answer = Yes | No | Raised

  // ---- Idempotency keys ---------------------------------------------------------------------------------------------

  /** `submission_idempotency_key`, which is also what the CHECK on the column demands. */
  function KeyText(k: RunKey): string {
    k.job.company + ":" + k.job.job + ":" + Decimal(k.attempt)
  }

  // ---- Triggers on job_execution_runs -------------------------------------------------------------------------------

  /** `external_status_monotonic`. */
  predicate StatusMayMove(from: Option<External>, to: Option<External>) {
    && (from.Some? ==> to.Some?)
    && (from.Some? && Terminal(from.value) ==> to == from)
    && (from == Some(XRunning) ==> to != Some(XAccepted))
  }

  /** The external identity belongs to no other row with the same executor. */
  predicate Unowned(runs: map<RunKey, Run>, k: RunKey, executor: Option<string>, runId: string) {
    forall j :: j in runs && j != k && runs[j].executor == executor ==>
      runs[j].ext.None? || runs[j].ext.value.runId != runId
  }

  /** Row constraints: executor and submission time come together, and an acceptance lies between
      submission and observation. */
  predicate RowOk(k: RunKey, r: Run) {
    && r.key == KeyText(k) && k.attempt > 0
    && (r.submittedAt.Some? <==> r.executor.Some?)
    && (r.ext.Some? ==> r.submittedAt.Some? && r.submittedAt.value <= r.ext.value.acceptedAt <= r.ext.value.observedAt)
  }

  /** Every trigger and constraint on an update of one run row. */
  predicate UpdateOk(runs: map<RunKey, Run>, k: RunKey, r: Run, s: Run) {
    && RowOk(k, s)
    && s.key == r.key
    && (r.result.Some? ==> s.result == r.result)
    && StatusMayMove(r.status, s.status)
    && (r.executor.Some? ==> s.executor == r.executor)
    && (r.ext.Some? ==> s.ext == r.ext)
    && (s.ext.Some? && s.ext != r.ext ==> Unowned(runs, k, s.executor, s.ext.value.runId))
  }

  // ---- The calls of the repository ----------------------------------------------------------------------------------

  datatype Call =
    | ClaimSubmission(k: RunKey, state: JobState, key: string, executor: string, now: Time, lease: Lease)
    | ClaimExisting(k: RunKey, state: JobState, statuses: set<External>, now: Time, lease: Lease)
    | ClaimCanceledLookup(k: RunKey, now: Time, lease: Lease)
    | RecordAcceptance(k: RunKey, token: string, key: string, executor: string, ext: Acceptance)
    | RecordLookupAcceptance(k: RunKey, token: string, key: string, executor: string, ext: Acceptance)
    | RecordSubmitFailure(k: RunKey, token: string, nextAt: Option<Time>, failure: Failure)
    | RecordPollFailure(k: RunKey, token: string, nextAt: Option<Time>, stage: Option<Stage>,
                        retryStage: RetryStage, failure: Failure)
    | RecordPollStatus(k: RunKey, token: string, status: External, stage: Option<Stage>, retryStage: RetryStage,
                       consume: bool,
                       nextAt: Option<Time>, completedAt: Option<Time>, cause: Option<Failure>, result: Option<Payload>)
    | ReconcilePollAfterCancel(k: RunKey, terminal: bool)
    | ReconcileTerminalAfterCancel(k: RunKey, now: Time)
    | ReconcileClaimedTerminalAfterCancel(k: RunKey, token: string)
    | RecordExhaustedPollAfterCancel(k: RunKey, token: string, failure: Failure)
    | MarkPollReconciliation(k: RunKey, token: string, failure: Failure)
    | MarkRetryConsumed(k: RunKey, token: string)
    | UpdateRunningStage(k: RunKey, stage: Option<Stage>)
    | MarkClaimedReconciliation(k: RunKey, token: string, failure: Failure)
    | MarkObservedReconciliation(k: RunKey, failure: Failure)
    | MarkClaimedCancelLookup(k: RunKey, token: string, failure: Failure)
    | QuarantineRunningDispatch(k: RunKey, failure: Failure, now: Time)
    | QuarantineQueued(k: RunKey, failure: Failure)
    | BeginCancel(k: RunKey, token: string)
    | RecordCancelFailure(k: RunKey, token: string, retryAt: Time, failure: Failure)
    | MarkKnownCancelReconciliation(k: RunKey, token: string, failure: Failure)
    | MarkCancelReconciliation(k: RunKey, now: Time)
    | RecordRemoteCanceled(k: RunKey, token: string, now: Time)
    | ReleaseLease(k: RunKey, token: string)
    | MarkReconciliation(k: RunKey, key: string)

  predicate LeaseFree(r: Run, now: Time) {
    r.lease.None? || r.lease.value.expires <= now
  }

  predicate Holds(r: Run, token: string) {
    r.lease.Some? && r.lease.value.token == token
  }

  predicate Claimable(r: Run, now: Time, token: string) {
    LeaseFree(r, now) || Holds(r, token)
  }

  /** The job row of this attempt is in the given state. */
  predicate JobIs(db: Db, k: RunKey, state: JobState) {
    k.job in db.jobs && db.jobs[k.job].attempt == k.attempt && db.jobs[k.job].state == state
  }

  predicate JobActive(db: Db, k: RunKey, state: JobState) {
    JobIs(db, k, state) && !db.jobs[k.job].superseded
  }

  predicate SubmissionJob(db: Db, k: RunKey, state: JobState) {
    JobActive(db, k, state) && (state.Running? ==> db.jobs[k.job].stage == Some(Dispatching))
  }

  predicate CanceledDispatch(db: Db, k: RunKey) {
    JobActive(db, k, Canceled) && db.jobs[k.job].stage == Some(Dispatching)
  }

  function EmptyRun(k: RunKey): Run {
    Run(KeyText(k), None, None, None, None, None, None, None, None, None, None, None, 0, Submission, 0)
  }

  /** The row that a call inserts when its key is free. */
  function Inserts(db: Db, call: Call): Option<Run> {
    match call
    case ClaimSubmission(k, state, key, executor, now, lease) =>
      if SubmissionJob(db, k, state)
      then Some(EmptyRun(k).(key := key, executor := Some(executor), submittedAt := Some(now), lease := Some(lease)))
      else None
    case QuarantineQueued(k, failure) =>
      if JobActive(db, k, Queued)
      then Some(EmptyRun(k).(stage := Some(ReconciliationRequired), errorCode := Some(failure.code),
                             errorSummary := Some(failure.summary), reconciliations := 1))
      else None
    case MarkReconciliation(k, key) =>
      Some(EmptyRun(k).(key := key, stage := Some(ReconciliationRequired), reconciliations := 1))
    case _ => None
  }

  /** The WHERE clause of the run update. */
  predicate Matches(db: Db, call: Call, r: Run) {
    match call
    case ClaimSubmission(k, state, key, executor, now, lease) =>
      r.key == key && (r.executor.None? || r.executor.value == executor) && Claimable(r, now, lease.token)
        && SubmissionJob(db, k, state)
    case ClaimExisting(k, state, statuses, now, lease) =>
      r.status.Some? && r.status.value in statuses && Claimable(r, now, lease.token) && JobActive(db, k, state)
    case ClaimCanceledLookup(k, now, lease) =>
      r.ext.None? && r.status.None? && Claimable(r, now, lease.token) && CanceledDispatch(db, k)
    case RecordAcceptance(_, token, key, _, _) => Holds(r, token) && r.key == key && r.ext.None?
    case RecordLookupAcceptance(k, token, key, _, _) =>
      Holds(r, token) && r.key == key && r.ext.None? && CanceledDispatch(db, k)
    case RecordSubmitFailure(_, token, _, _) => Holds(r, token) && r.ext.None? && r.status.None?
    case RecordPollFailure(_, token, _, _, _, _) => Holds(r, token) && r.ext.Some? && Open(r)
    case RecordPollStatus(_, token, _, _, _, _, _, _, _, result) =>
      Holds(r, token) && Open(r) && (r.result.None? || r.result == result)
    case ReconcilePollAfterCancel(k, terminal) =>
      r.lease.None? && (if terminal then Settled(r) else Open(r)) && JobIs(db, k, Canceled)
    case ReconcileTerminalAfterCancel(k, now) => Settled(r) && LeaseFree(r, now) && JobIs(db, k, Canceled)
    case ReconcileClaimedTerminalAfterCancel(k, token) =>
      Holds(r, token) && r.status.Some? && Terminal(r.status.value) && JobIs(db, k, Canceled)
    case RecordExhaustedPollAfterCancel(k, token, _) => Holds(r, token) && Open(r) && JobIs(db, k, Canceled)
    case MarkPollReconciliation(_, token, _) => Holds(r, token) && r.ext.Some? && Open(r)
    case MarkRetryConsumed(_, token) => Holds(r, token) && r.status == Some(XFailedRetryable)
    case UpdateRunningStage(_, _) => true
    case MarkClaimedReconciliation(_, token, _) => Holds(r, token)
    case MarkObservedReconciliation(_, _) => r.ext.Some?
    case MarkClaimedCancelLookup(_, token, _) => Holds(r, token) && r.ext.None? && r.status.None?
    case QuarantineRunningDispatch(_, _, now) => r.ext.None? && r.status.None? && LeaseFree(r, now)
    case QuarantineQueued(_, _) => r.ext.None? && r.status.None? && r.lease.None?
    case BeginCancel(_, token) => Holds(r, token) && Open(r)
    case RecordCancelFailure(_, token, _, _) => Holds(r, token) && r.ext.Some? && r.status != Some(XCanceled)
    case MarkKnownCancelReconciliation(_, token, _) => Holds(r, token) && r.ext.Some? && r.status != Some(XCanceled)
    case MarkCancelReconciliation(_, now) => r.ext.None? && LeaseFree(r, now)
    case RecordRemoteCanceled(_, token, _) => Holds(r, token) && r.ext.Some?
    case ReleaseLease(_, token) => Holds(r, token)
    case MarkReconciliation(_, _) => true
  }

  /** Status in ACCEPTED or RUNNING. */
  predicate Open(r: Run) {
    r.status == Some(XAccepted) || r.status == Some(XRunning)
  }

  /** Status in SUCCEEDED, FAILED_RETRYABLE or FAILED_FINAL. */
  predicate Settled(r: Run) {
    r.status == Some(XSucceeded) || r.status == Some(XFailedRetryable) || r.status == Some(XFailedFinal)
  }

  function Coalesce<T>(a: Option<T>, b: Option<T>): Option<T> {
    if a.Some? then a else b
  }

  function Accept(r: Run, executor: string, ext: Acceptance): Run {
    r.(ext := Some(ext), executor := Some(executor), status := Some(XAccepted), nextAt := None, errorCode := None,
       errorSummary := None, retryStage := Poll("unknown"), failures := 0, lease := None)
  }

  /** The SET clause of the run update. */
  function After(call: Call, r: Run): Run {
    match call
    case ClaimSubmission(_, _, _, executor, _, lease) =>
      r.(executor := Coalesce(r.executor, Some(executor)), lease := Some(lease))
    case ClaimExisting(_, _, _, _, lease) => r.(lease := Some(lease))
    case ClaimCanceledLookup(_, _, lease) => r.(lease := Some(lease))
    case RecordAcceptance(_, _, _, executor, ext) => Accept(r, executor, ext)
    case RecordLookupAcceptance(_, _, _, executor, ext) => Accept(r, executor, ext)
    case RecordSubmitFailure(_, _, nextAt, f) => Failed(r, f).(nextAt := nextAt, failures := r.failures + 1)
    case RecordPollFailure(_, _, nextAt, stage, retryStage, f) =>
      Failed(r, f).(nextAt := nextAt, stage := Coalesce(stage, r.stage), retryStage := retryStage,
                    failures := r.failures + 1)
    case RecordPollStatus(_, _, status, stage, retryStage, consume, nextAt, completedAt, f, result) =>
      var charge := if consume then 1 else 0;
      r.(status := Some(status), stage := stage, nextAt := nextAt, completedAt := completedAt,
         errorCode := if f.Some? then Some(f.value.code) else None,
         errorSummary := if f.Some? then Some(f.value.summary) else None,
         result := Coalesce(r.result, result),
         failures := if r.retryStage != retryStage then charge else r.failures + charge,
         retryStage := retryStage, lease := None)
    case ReconcilePollAfterCancel(_, terminal) =>
      if terminal then Reconciled(r, CancelReconciliationRequired).(lease := r.lease) else r.(nextAt := None)
    case ReconcileTerminalAfterCancel(_, _) => Reconciled(r, CancelReconciliationRequired)
    case ReconcileClaimedTerminalAfterCancel(_, _) => Reconciled(r, CancelReconciliationRequired)
    case RecordExhaustedPollAfterCancel(_, _, f) =>
      Failed(r, f).(nextAt := None, failures := r.failures + 1, reconciliations := r.reconciliations + 1)
    case MarkPollReconciliation(_, _, f) =>
      Reconciled(Failed(r, f), ReconciliationRequired).(failures := r.failures + 1)
    case MarkRetryConsumed(_, _) => r.(nextAt := None, lease := None)
    case UpdateRunningStage(_, _) => r
    case MarkClaimedReconciliation(_, _, f) => Reconciled(Failed(r, f), ReconciliationRequired)
    case MarkObservedReconciliation(_, f) => Reconciled(Failed(r, f), ReconciliationRequired)
    case MarkClaimedCancelLookup(_, _, f) => Reconciled(Failed(r, f), CancelReconciliationRequired)
    case QuarantineRunningDispatch(_, f, _) => Reconciled(Failed(r, f), ReconciliationRequired)
    case QuarantineQueued(_, f) =>
      r.(stage := Some(ReconciliationRequired), errorCode := Some(f.code), errorSummary := Some(f.summary),
         reconciliations := if r.stage == Some(ReconciliationRequired) then r.reconciliations
           else r.reconciliations + 1)
    case BeginCancel(_, _) =>
      r.(failures := if r.retryStage.CancelStage? then r.failures else 0, retryStage := CancelStage,
         stage := if r.stage == Some(CancelRetryPending) then r.stage else Some(Canceling))
    case RecordCancelFailure(_, _, nextAt, f) =>
      Failed(r, f).(stage := Some(CancelRetryPending), nextAt := Some(nextAt), failures := r.failures + 1)
    case MarkKnownCancelReconciliation(_, _, f) =>
      Reconciled(Failed(r, f), CancelReconciliationRequired).(failures := r.failures + 1)
    case MarkCancelReconciliation(_, _) => Reconciled(r, CancelReconciliationRequired).(nextAt := r.nextAt)
    case RecordRemoteCanceled(_, _, now) =>
      r.(status := Some(XCanceled), nextAt := None, completedAt := Coalesce(r.completedAt, Some(now)), lease := None)
    case ReleaseLease(_, _) => r.(lease := None)
    case MarkReconciliation(_, _) => r
  }

  /** Error columns set and the lease given up. */
  function Failed(r: Run, f: Failure): Run {
    r.(errorCode := Some(f.code), errorSummary := Some(f.summary), lease := None)
  }

  /** Parked for an operator, lease given up. */
  function Reconciled(r: Run, stage: Stage): Run {
    r.(stage := Some(stage), nextAt := None, reconciliations := r.reconciliations + 1, lease := None)
  }

  // ---- The second statement of a call: the job row or the retry budget ----------------------------------------------

  /** The retry stage that a successful call charges. */
  function Charges(call: Call): Option<RetryStage> {
    match call
    case RecordSubmitFailure(_, _, _, _) => Some(Submission)
    case RecordPollFailure(_, _, _, _, retryStage, _) => Some(retryStage)
    case RecordPollStatus(_, _, _, _, retryStage, consume, _, _, _, _) => if consume then Some(retryStage) else None
    case RecordCancelFailure(_, _, _, _) => Some(CancelStage)
    case _ => None
  }

  function Budget(db: Db, job: JobKey, s: RetryStage): nat {
    if (job, s) in db.budgets then db.budgets[(job, s)] else 0
  }

  /** The limit in the job's plan. */
  function MaxRetries(db: Db, job: JobKey): nat {
    if job in db.jobs then db.jobs[job].maxRetries else 0
  }

  function Charged(db: Db, job: JobKey, s: RetryStage): Db {
    db.(budgets := db.budgets[(job, s) := Budget(db, job, s) + 1])
  }

  /** Does the call update the job row, and does that row match? */
  datatype JobEffect = NoJobUpdate | JobUpdate(matches: bool, stage: Option<Stage>, failure: Option<Failure>)

  function OnJob(db: Db, call: Call): JobEffect {
    var k := call.k;
    match call
    case MarkPollReconciliation(_, _, _) => JobUpdate(JobIs(db, k, Running), Some(ReconciliationRequired), None)
    case UpdateRunningStage(_, stage) => JobUpdate(JobActive(db, k, Running), stage, None)
    case MarkClaimedReconciliation(_, _, f) =>
      JobUpdate(|| JobIs(db, k, Queued) || JobIs(db, k, Running) || JobIs(db, k, Succeeded)
                || JobIs(db, k, FailedRetryable) || JobIs(db, k, FailedFinal) || JobIs(db, k, Canceled),
                Some(ReconciliationRequired), Some(f))
    case MarkObservedReconciliation(_, f) =>
      JobUpdate(JobIs(db, k, Running) || JobIs(db, k, Succeeded) || JobIs(db, k, Canceled),
                Some(ReconciliationRequired), Some(f))
    case MarkClaimedCancelLookup(_, _, _) => JobUpdate(JobIs(db, k, Canceled), Some(CancelReconciliationRequired), None)
    case QuarantineRunningDispatch(_, f, _) =>
      JobUpdate(JobIs(db, k, Running) && db.jobs[k.job].stage == Some(Dispatching), Some(ReconciliationRequired),
                Some(f))
    case QuarantineQueued(_, f) => JobUpdate(JobActive(db, k, Queued), Some(ReconciliationRequired), Some(f))
    case MarkKnownCancelReconciliation(_, _, _) =>
      JobUpdate(JobIs(db, k, Canceled), Some(CancelReconciliationRequired), None)
    case MarkCancelReconciliation(_, _) => JobUpdate(JobIs(db, k, Canceled), Some(CancelReconciliationRequired), None)
    case MarkReconciliation(_, _) => JobUpdate(JobActive(db, k, Running), Some(ReconciliationRequired), None)
    case _ => NoJobUpdate
  }

  function Restaged(db: Db, job: JobKey, stage: Option<Stage>, f: Option<Failure>): Db
    requires job in db.jobs
  {
    var j := db.jobs[job].(stage := stage);
    db.(jobs := db.jobs[job := if f.Some?
                        then j.(errorCode := Some(f.value.code), errorSummary := Some(f.value.summary)) else j])
  }

  function Log(db: Db, job: JobKey): seq<Edge> {
    if job in db.logs then db.logs[job] else []
  }

  function Logged(db: Db, job: JobKey, from: Option<JobState>, to: JobState): Db {
    db.(logs := db.logs[job := Log(db, job) + [Edge(from, to)]])
  }

  /** Claiming a queued submission also moves the job to RUNNING, in the same transaction. */
  function Dispatched(db: Db, k: RunKey, now: Time): Db
    requires k.job in db.jobs
  {
    var j := db.jobs[k.job];
    Logged(db.(jobs := db.jobs[k.job := j.(state := Running, stage := Some(Dispatching),
                                           started := Coalesce(j.started, Some(now)))]),
           k.job, Some(Queued), Running)
  }

  // ---- One call as one transaction ----------------------------------------------------------------------------------

  function WithInsert(db: Db, call: Call): Option<Db> {
    var row := Inserts(db, call);
    if call.k in db.runs || row.None? then Some(db)
    else if !RowOk(call.k, row.value) then None
    else Some(db.(runs := db.runs[call.k := row.value]))
  }

  /** What follows once the run row is updated. */
  function Finish(db: Db, call: Call): (Db, Answer) {
    var s := Charges(call);
    if s.Some? then (Charged(db, call.k.job, s.value), Yes)
    else if call.ClaimSubmission? && call.state.Queued? then
      if JobActive(db, call.k, Queued) then (Dispatched(db, call.k, call.now), Yes) else (db, Raised)
    else
      match OnJob(db, call)
      case NoJobUpdate => (db, Yes)
      case JobUpdate(matches, stage, f) =>
        if matches && call.k.job in db.jobs then (Restaged(db, call.k.job, stage, f), Yes)
        else if call.MarkReconciliation? then (db, Raised) else (db, No)
  }

  /** Does the call have a run update at all? */
  predicate TouchesRun(call: Call) {
    !call.UpdateRunningStage? && !call.MarkReconciliation?
  }

  /** A repository call. A raise rolls the whole transaction back; a second statement that matches
      no row leaves the first one committed and answers `No`. */
  function Apply(db: Db, call: Call): (Db, Answer) {
    if call.QuarantineQueued? && !JobActive(db, call.k, Queued) then (db, No)
    else if call.ClaimSubmission? && !call.state.Queued? && !call.state.Running? then (db, Raised)
    else
      var db1 := WithInsert(db, call);
      if db1.None? then (db, Raised)
      else
        var out := UpdateRun(db1.value, call);
        if out.1 == Raised then (db, Raised) else out
  }

  function UpdateRun(db: Db, call: Call): (Db, Answer) {
    var k := call.k;
    if !TouchesRun(call) then Finish(db, call)
    else if k !in db.runs || !Matches(db, call, db.runs[k]) then (db, No)
    else
      var r := After(call, db.runs[k]);
      if !UpdateOk(db.runs, k, db.runs[k], r) then (db, Raised)
      else Finish(db.(runs := db.runs[k := r]), call)
  }
}
