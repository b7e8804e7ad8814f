/**
 What a transaction on the runner's tables may touch, whoever issues it: the invariant of the tables,
 the rows it leaves alone, and what presenting a lease token means.
 */
module RunnerEffects {
  import opened Texts
  import opened RunnerTables
  import opened RunnerFencing
  import opened JobService

  /** The invariant of the tables: row constraints, audit logs that explain every job, and at most one
      active job of a creator. */
  ghost predicate Sound(db: Db) {
    RowsOk(db) && Audited(db) && OneActive(db.jobs)
  }

  lemma OpKeepsSound(db: Db, op: DbOp)
    requires Sound(db)
    ensures Sound(Perform(db, op).0)
  {
    hide Perform, RowsOk, Audited, OneActive;
    PerformKeepsAudit(db, op);
    PerformKeepsOneActive(db, op);
    OpKeepsRows(db, op);
  }

  lemma OpKeepsRows(db: Db, op: DbOp)
    requires RowsOk(db)
    ensures RowsOk(Perform(db, op).0)
  {
    if op.OpCall? {
      CallKeepsRows(db, op.call);
      hide Apply, RowsOk;
    } else {
      hide Perform;
      ServiceKeepsRuns(db, op);
    }
  }

  // ---- What stays as it was -----------------------------------------------------------------------------------------

  /** The same jobs, and every other job as it was, with its budgets and its log. */
  ghost predicate JobsKeptBut(was: Db, db: Db, key: JobKey) {
    && db.jobs.Keys == was.jobs.Keys && (forall j :: j in was.jobs && j != key ==> db.jobs[j] == was.jobs[j])
    && (forall j: JobKey, s: RetryStage :: j != key ==> Budget(db, j, s) == Budget(was, j, s))
    && (forall j: JobKey :: j != key ==> Log(db, j) == Log(was, j))
  }

  ghost predicate RowsKeptBut(was: Db, db: Db, k: RunKey) {
    was.runs.Keys <= db.runs.Keys <= was.runs.Keys + {k} && forall j :: j in was.runs && j != k ==>
      db.runs[j] == was.runs[j]
  }

  /** Everything but the run row of `k` and the job, budgets and log of its job. */
  ghost predicate OthersKept(was: Db, db: Db, k: RunKey) {
    RowsKeptBut(was, db, k) && JobsKeptBut(was, db, k.job)
  }

  /** Every other job, every run row and every budget is as it was. */
  ghost predicate OnlyJob(was: Db, db: Db, key: JobKey) {
    db.runs == was.runs && db.budgets == was.budgets && JobsKeptBut(was, db, key)
  }

  /** Identity, acceptance, status and result of a row. */
  predicate SameOutcome(r: Run, s: Run) {
    s.key == r.key && s.executor == r.executor && s.submittedAt == r.submittedAt && s.ext == r.ext
      && s.status == r.status && s.result == r.result
  }

  /** Nothing is known of the run yet. */
  predicate Unanswered(r: Run) {
    r.ext.None? && r.status.None?
  }

  predicate Held(db: Db, k: RunKey, token: string) {
    k in db.runs && Holds(db.runs[k], token)
  }

  predicate Freed(db: Db, k: RunKey) {
    k in db.runs && db.runs[k].lease.None?
  }

  /** Left for an operator: free, counted, and with the outcome it had. */
  predicate Parked(was: Db, db: Db, k: RunKey, stage: Stage) {
    && k in was.runs && Freed(db, k) && SameOutcome(was.runs[k], db.runs[k])
    && db.runs[k].stage == Some(stage) && db.runs[k].reconciliations == was.runs[k].reconciliations + 1
  }

  /** No budget changed. */
  predicate Uncharged(was: Db, db: Db) {
    db.budgets == was.budgets
  }

  /** One more failure of this stage, the first one of a stage without any, and no other. */
  predicate OneMore(was: Db, db: Db, job: JobKey, s: RetryStage) {
    db.budgets == was.budgets[(job, s) := (if (job, s) in was.budgets then was.budgets[(job, s)] else 0) + 1]
  }

  lemma ChargedOnce(was: Db, db: Db, job: JobKey, s: RetryStage)
    requires db.budgets == was.budgets
    ensures OneMore(was, Charged(db, job, s), job, s)
  {
  }

  /** What presenting a token means: the row of another holder, and every job's state, attempt, approval
      and log, are out of reach, and without the lease nothing happens at all. */
  ghost predicate Fenced(was: Db, db: Db, k: RunKey, token: string, answer: Answer) {
    && OthersKept(was, db, k) && CoreKept(was, db)
    && (answer.Yes? ==> Held(was, k, token))
    && (!Held(was, k, token) ==> answer.No? && db == was)
  }

  // ---- Every repository call ----------------------------------------------------------------------------------------

  lemma RowsOfOthers(db: Db, call: Call)
    ensures RowsKeptBut(db, Apply(db, call).0, call.k)
  {
    hide Apply, UpdateOk, Matches, After, Inserts, RowOk;
    var d := Apply(db, call).0;
    forall j | j in db.runs ensures j in d.runs && (j != call.k ==> d.runs[j] == db.runs[j]) {
      RowAfter(db, call, j);
    }
    forall j | j in d.runs ensures j in db.runs.Keys + {call.k} {
      if j !in db.runs {
        RowInserted(db, call, j);
      }
    }
  }

  lemma SameJobs(was: Db, db: Db, key: JobKey)
    requires db.jobs == was.jobs && db.budgets == was.budgets && db.logs == was.logs
    ensures JobsKeptBut(was, db, key) && forall d: Db :: JobsKeptBut(db, d, key) ==> JobsKeptBut(was, d, key)
  {
  }

  lemma ChargedElse(db: Db, job: JobKey, s: RetryStage)
    ensures JobsKeptBut(db, Charged(db, job, s), job)
  {
  }

  lemma RestagedElse(db: Db, job: JobKey, stage: Option<Stage>, f: Option<Failure>)
    requires job in db.jobs
    ensures JobsKeptBut(db, Restaged(db, job, stage, f), job)
  {
  }

  lemma DispatchedElse(db: Db, k: RunKey, now: Time)
    requires k.job in db.jobs
    ensures JobsKeptBut(db, Dispatched(db, k, now), k.job)
  {
  }

  lemma FinishOfOthers(db: Db, call: Call)
    ensures JobsKeptBut(db, Finish(db, call).0, call.k.job)
  {
    hide OnJob, JobsKeptBut, Charged, Restaged, Dispatched, Charges;
    SameJobs(db, db, call.k.job);
    var s, on := Charges(call), OnJob(db, call);
    if s.Some? {
      ChargedElse(db, call.k.job, s.value);
    } else if call.k.job in db.jobs {
      if on.JobUpdate? {
        RestagedElse(db, call.k.job, on.stage, on.failure);
      }
      if call.ClaimSubmission? {
        DispatchedElse(db, call.k, call.now);
      }
    }
  }

  lemma JobsOfOthers(db: Db, call: Call)
    ensures JobsKeptBut(db, Apply(db, call).0, call.k.job)
  {
    hide Matches, After, UpdateOk, Inserts, RowOk, Finish, JobsKeptBut, JobActive;
    var db1 := WithInsert(db, call);
    SameJobs(db, db, call.k.job);
    if db1.Some? {
      SameJobs(db, db1.value, call.k.job);
      FinishOfOthers(db1.value, call);
      if call.k in db1.value.runs {
        var d := db1.value.(runs := db1.value.runs[call.k := After(call, db1.value.runs[call.k])]);
        SameJobs(db, d, call.k.job);
        FinishOfOthers(d, call);
      }
    }
  }

  /** A repository call keeps the invariant, touches one row and one job, and, unless it dispatches a
      submission, leaves the state, attempt, approval and log of that job alone. */
  lemma CallEffects(db: Db, call: Call)
    requires Sound(db)
    ensures var d := Apply(db, call).0;
      Sound(d) && OthersKept(db, d, call.k) && (call.ClaimSubmission? || CoreKept(db, d))
  {
    hide Apply, Sound, CoreKept, Perform, RowsKeptBut, JobsKeptBut;
    CallIsPerformed(db, call);
    OpKeepsSound(db, OpCall(call));
    RowsOfOthers(db, call);
    JobsOfOthers(db, call);
    CallOnJobs(db, call);
  }

  lemma CallIsPerformed(db: Db, call: Call)
    ensures Perform(db, OpCall(call)) == Apply(db, call)
  {
    hide Apply;
  }

  lemma TokenNeeded(db: Db, call: Call)
    requires TokenOf(call).Some? && !Held(db, call.k, TokenOf(call).value)
    ensures Apply(db, call) == (db, No)
  {
    StatementApplied(db, call);
    hide Apply, UpdateOk, After, JobIs, JobActive, SubmissionJob, CanceledDispatch;
  }

  /** A call that presents a token. */
  lemma CallFenced(db: Db, call: Call, token: string)
    requires Sound(db) && TokenOf(call) == Some(token)
    ensures var out := Apply(db, call); Sound(out.0) && Fenced(db, out.0, call.k, token, out.1)
  {
    hide Apply, Sound, OthersKept, CoreKept, TokenOf;
    CallEffects(db, call);
    assert !call.ClaimSubmission? by { ClaimHasNoToken(call); }
    if !Held(db, call.k, token) {
      TokenNeeded(db, call);
    }
  }

  lemma ClaimHasNoToken(call: Call)
    requires TokenOf(call).Some?
    ensures !call.ClaimSubmission?
  {
  }

  /** No trigger stops an update that leaves the outcome of a sound row alone. */
  lemma NoTrigger(db: Db, k: RunKey, s: Run)
    requires Sound(db) && k in db.runs && SameOutcome(db.runs[k], s)
    ensures UpdateOk(db.runs, k, db.runs[k], s)
  {
    hide KeyText, Audited, OneActive, Unowned;
    assert RowOk(k, db.runs[k]);
  }

  /** The triggers let an acceptance in only if no other row of the executor has its run. */
  lemma AcceptTrigger(db: Db, k: RunKey, s: Run)
    requires k in db.runs && db.runs[k].ext.None? && s.ext.Some?
    ensures UpdateOk(db.runs, k, db.runs[k], s) ==> Unowned(db.runs[k := s], k, s.executor, s.ext.value.runId)
  {
    hide KeyText;
  }

  /** They let a cancellation in unless the run ended in another way. */
  lemma CancelTrigger(db: Db, k: RunKey, s: Run)
    requires
      && Sound(db) && k in db.runs && SameOutcome(db.runs[k], s.(status := db.runs[k].status))
      && s.status == Some(XCanceled)
    ensures UpdateOk(db.runs, k, db.runs[k], s)
       <==> (db.runs[k].status.Some? && Terminal(db.runs[k].status.value) ==> db.runs[k].status.value.XCanceled?)
  {
    hide KeyText, Audited, OneActive, Unowned;
    assert RowOk(k, db.runs[k]);
  }

  /** The job of a run is where it was as long as the job rows are. */
  lemma SameStates(db: Db, d: Db, k: RunKey)
    requires d.jobs == db.jobs
    ensures forall s: JobState :: (JobIs(d, k, s) <==> JobIs(db, k, s)) && (JobIs(d, k, s) ==> k.job in d.jobs)
  {
  }

  // ---- Calls with an insert -----------------------------------------------------------------------------------------

  /** A claim that is not granted leaves nothing behind; one that is leaves the job running. */
  lemma ClaimMeans(db: Db, k: RunKey, state: JobState, key: string, executor: string, now: Time, lease: Lease)
    ensures var out := Apply(db, ClaimSubmission(k, state, key, executor, now, lease));
      && (!out.1.Yes? ==> out.0 == db) && Uncharged(db, out.0)
      && (out.1.Yes? ==> SubmissionJob(db, k, state) && JobActive(out.0, k, Running) && Held(out.0, k, lease.token))
  {
    hide UpdateOk, RowOk, KeyText;
  }

  lemma QuarantineMeans(db: Db, k: RunKey, f: Failure)
    ensures var out := Apply(db, QuarantineQueued(k, f));
      && (!out.1.Yes? ==> out.0 == db) && Uncharged(db, out.0)
      && (out.1.Yes? ==>
            && JobActive(out.0, k, Queued) && out.0.jobs[k.job].stage == Some(ReconciliationRequired)
            && Freed(out.0, k) && Unanswered(out.0.runs[k]) && out.0.runs[k].stage == Some(ReconciliationRequired))
  {
    hide UpdateOk, RowOk, KeyText;
  }

  lemma MarkMeans(db: Db, k: RunKey, key: string)
    ensures var out := Apply(db, MarkReconciliation(k, key));
      && (!out.1.Yes? ==> out.1.Raised? && out.0 == db) && Uncharged(db, out.0)
      && (out.1.Yes? ==> JobActive(out.0, k, Running) && k in out.0.runs && (k in db.runs ==> out.0.runs == db.runs))
  {
    hide UpdateOk, RowOk, KeyText;
  }

  /** The tables after the insert of a call. */
  function Inserted(db: Db, k: RunKey, row: Run): Db {
    if k in db.runs then db else db.(runs := db.runs[k := row])
  }

  function SubmissionRow(k: RunKey, key: string, executor: string, now: Time, lease: Lease): Run {
    EmptyRun(k).(key := key, executor := Some(executor), submittedAt := Some(now), lease := Some(lease))
  }

  function QuarantineRow(k: RunKey, f: Failure): Run {
    EmptyRun(k).(stage := Some(ReconciliationRequired), errorCode := Some(f.code), errorSummary := Some(f.summary),
                 reconciliations := 1)
  }

  function ReconciliationRow(k: RunKey, key: string): Run {
    EmptyRun(k).(key := key, stage := Some(ReconciliationRequired), reconciliations := 1)
  }

  /** The three statements of a submission claim: insert, lease, dispatch. */
  lemma ClaimApplied(db: Db, k: RunKey, state: JobState, key: string, executor: string, now: Time, lease: Lease)
    requires state.Queued? || state.Running?
    ensures var call, row := ClaimSubmission(k, state, key, executor, now, lease),
      SubmissionRow(k, key, executor, now, lease);
      Apply(db, call) ==
        if k !in db.runs && !SubmissionJob(db, k, state) then (db, No)
        else if k !in db.runs && !RowOk(k, row) then (db, Raised)
        else
          var d := Inserted(db, k, row);
          if !Matches(d, call, d.runs[k]) then (db, No)
          else if !UpdateOk(d.runs, k, d.runs[k], After(call, d.runs[k])) then (db, Raised)
          else
            var e := d.(runs := d.runs[k := After(call, d.runs[k])]);
            (if state.Queued? then Dispatched(e, k, now) else e, Yes)
  {
    hide UpdateOk, RowOk, KeyText, Dispatched;
  }

  lemma WrongState(db: Db, k: RunKey, state: JobState, key: string, executor: string, now: Time, lease: Lease)
    requires !state.Queued? && !state.Running?
    ensures Apply(db, ClaimSubmission(k, state, key, executor, now, lease)) == (db, Raised)
  {
  }

  lemma ClaimMatches(db: Db, k: RunKey, state: JobState, key: string, executor: string, now: Time, lease: Lease, r: Run)
    ensures Matches(db, ClaimSubmission(k, state, key, executor, now, lease), r)
       <==> (r.key == key && (r.executor.None? || r.executor.value == executor) && Claimable(r, now,
           lease.token) && SubmissionJob(db, k, state))
  {
  }

  lemma QuarantineApplied(db: Db, k: RunKey, f: Failure)
    ensures var call, row := QuarantineQueued(k, f), QuarantineRow(k, f);
      Apply(db, call) ==
        if !JobActive(db, k, Queued) then (db, No)
        else if k !in db.runs && !RowOk(k, row) then (db, Raised)
        else
          var d := Inserted(db, k, row);
          if !Matches(d, call, d.runs[k]) then (db, No)
          else if !UpdateOk(d.runs, k, d.runs[k], After(call, d.runs[k])) then (db, Raised)
          else (Restaged(d.(runs := d.runs[k := After(call, d.runs[k])]), k.job, Some(ReconciliationRequired), Some(f)),
                Yes)
  {
    hide UpdateOk, RowOk, KeyText, Restaged;
  }

  lemma MarkApplied(db: Db, k: RunKey, key: string)
    ensures var row := ReconciliationRow(k, key);
      Apply(db, MarkReconciliation(k, key)) ==
        if (k !in db.runs && !RowOk(k, row)) || !JobActive(db, k, Running) then (db, Raised)
        else (Restaged(Inserted(db, k, row), k.job, Some(ReconciliationRequired), None), Yes)
  {
    hide RowOk, KeyText, Restaged;
  }

  // ---- Columns ------------------------------------------------------------------------------------------------------

  /** The failure that a call stores in the error columns. */
  function Stores(call: Call): Option<Failure> {
    match call
    case RecordSubmitFailure(_, _, _, f) => Some(f)
    case RecordPollFailure(_, _, _, _, _, f) => Some(f)
    case RecordPollStatus(_, _, _, _, _, _, _, _, f, _) => f
    case RecordExhaustedPollAfterCancel(_, _, f) => Some(f)
    case RecordCancelFailure(_, _, _, f) => Some(f)
    case MarkPollReconciliation(_, _, f) => Some(f)
    case MarkClaimedReconciliation(_, _, f) => Some(f)
    case MarkObservedReconciliation(_, f) => Some(f)
    case MarkClaimedCancelLookup(_, _, f) => Some(f)
    case MarkKnownCancelReconciliation(_, _, f) => Some(f)
    case QuarantineRunningDispatch(_, f, _) => Some(f)
    case QuarantineQueued(_, f) => Some(f)
    case _ => None
  }

  /** The stage in which a call parks a run. */
  function ParksIn(call: Call): Option<Stage> {
    if || call.MarkPollReconciliation? || call.MarkClaimedReconciliation? || call.MarkObservedReconciliation?
       || call.QuarantineRunningDispatch? || call.QuarantineQueued?
    then Some(ReconciliationRequired)
    else if || call.MarkClaimedCancelLookup? || call.MarkKnownCancelReconciliation? || call.MarkCancelReconciliation?
            || call.ReconcileTerminalAfterCancel? || call.ReconcileClaimedTerminalAfterCancel?
            || (call.ReconcilePollAfterCancel? && call.terminal)
    then Some(CancelReconciliationRequired)
    else None
  }

  /** Which call writes which column of a run row: identity is written by claims and acceptances, the
      outcome by three calls, and every call but a claim and three others gives the lease up. */
  lemma IdentityWritten(call: Call, r: Run)
    ensures var s, accepts := After(call, r), call.RecordAcceptance? || call.RecordLookupAcceptance?;
      && s.key == r.key && s.submittedAt == r.submittedAt
      && s.ext == (if accepts then Some(call.ext) else r.ext)
      && s.executor == (if accepts then Some(call.executor)
                        else if call.ClaimSubmission? && r.executor.None? then Some(call.executor) else r.executor)
      && s.status == (if accepts then Some(XAccepted) else if call.RecordPollStatus? then Some(call.status)
                      else if call.RecordRemoteCanceled? then Some(XCanceled) else r.status)
      && s.result == (if call.RecordPollStatus? && r.result.None? then call.result else r.result)
      && s.completedAt == (if call.RecordPollStatus? then call.completedAt
                           else if call.RecordRemoteCanceled? && r.completedAt.None? then Some(call.now)
                           else r.completedAt)
      && s.lease == (if LeaseOf(call).Some? then LeaseOf(call)
                     else if || call.BeginCancel? || call.ReconcilePollAfterCancel? || call.QuarantineQueued?
                             || call.UpdateRunningStage? || call.MarkReconciliation?
                     then r.lease else None)
  {
  }

  /** The error columns are written by the calls that store a failure, and cleared by an acceptance and
      a status without one. */
  lemma ErrorsWritten(call: Call, r: Run)
    ensures var s, f := After(call, r), Stores(call);
      if f.Some? then s.errorCode == Some(f.value.code) && s.errorSummary == Some(f.value.summary)
      else if call.RecordAcceptance? || call.RecordLookupAcceptance? || call.RecordPollStatus? then
        s.errorCode.None? && s.errorSummary.None?
      else s.errorCode == r.errorCode && s.errorSummary == r.errorSummary
  {
  }

  /** A parking call names its stage, takes the row off the schedule and counts. */
  lemma ScheduleWritten(call: Call, r: Run)
    ensures var s, park := After(call, r), ParksIn(call);
      && s.stage == (if park.Some? then park
                     else if call.RecordPollStatus? then call.stage
                     else if call.RecordPollFailure? && call.stage.Some? then call.stage
                     else if call.RecordCancelFailure? then Some(CancelRetryPending)
                     else if call.BeginCancel? && r.stage != Some(CancelRetryPending) then Some(Canceling)
                     else r.stage)
      && s.nextAt == (if call.RecordSubmitFailure? || call.RecordPollFailure? || call.RecordPollStatus? then call.nextAt
                      else if call.RecordCancelFailure? then Some(call.retryAt)
                      else if || LeaseOf(call).Some? || call.ReleaseLease? || call.BeginCancel?
                              || call.MarkCancelReconciliation? || call.QuarantineQueued?
                              || call.UpdateRunningStage? || call.MarkReconciliation?
                      then r.nextAt else None)
      && s.reconciliations - r.reconciliations
      == (if call.QuarantineQueued? && r.stage == Some(ReconciliationRequired) then 0
          else if park.Some? || call.RecordExhaustedPollAfterCancel? then 1 else 0)
  {
  }

  /** Failures in a row are counted per stage: a call in another stage starts over. */
  lemma FailuresWritten(call: Call, r: Run)
    ensures var s, accepts := After(call, r), call.RecordAcceptance? || call.RecordLookupAcceptance?;
      var elsewhere := || accepts || (call.BeginCancel? && !r.retryStage.CancelStage?)
                       || (call.RecordPollStatus? && r.retryStage != call.retryStage);
      var counts := || call.RecordSubmitFailure? || call.RecordPollFailure? || call.RecordExhaustedPollAfterCancel?
                    || call.MarkPollReconciliation? || call.RecordCancelFailure?
                    || call.MarkKnownCancelReconciliation? || (call.RecordPollStatus? && call.consume);
      && s.failures == (if elsewhere then 0 else r.failures) + (if counts then 1 else 0)
      && s.retryStage == (if accepts then Poll("unknown") else if call.BeginCancel? then CancelStage
                          else if call.RecordPollFailure? || call.RecordPollStatus? then call.retryStage
                          else r.retryStage)
  {
  }

  /** The stage and the error columns of one job, as the call says. */
  ghost predicate JobNoted(was: map<JobKey, Job>, jobs: map<JobKey, Job>, call: Call) {
    && call.k.job in was && was[call.k.job].attempt == call.k.attempt
    && var j, f := was[call.k.job], Stores(call);
       && var errors := || call.MarkClaimedReconciliation? || call.MarkObservedReconciliation?
                        || call.QuarantineRunningDispatch? || call.QuarantineQueued?;
          jobs == was[call.k.job := j.(
            stage := if call.UpdateRunningStage? then call.stage
              else if call.MarkReconciliation? then Some(ReconciliationRequired) else ParksIn(call),
            errorCode := if errors then Some(f.value.code) else j.errorCode,
            errorSummary := if errors then Some(f.value.summary) else j.errorSummary)]
  }

  lemma FinishNotes(db: Db, call: Call)
    requires !call.ClaimSubmission?
    ensures var jobs := Finish(db, call).0.jobs; jobs == db.jobs || JobNoted(db.jobs, jobs, call)
  {
  }

  /** A call that is not a claim writes at most the stage and the error columns of its job. */
  lemma JobRowWritten(db: Db, call: Call)
    requires !call.ClaimSubmission?
    ensures var jobs := Apply(db, call).0.jobs; jobs == db.jobs || JobNoted(db.jobs, jobs, call)
  {
    hide Matches, After, UpdateOk, Inserts, RowOk, Finish, JobNoted, JobActive, UpdateRun, WithInsert;
    var db1 := WithInsert(db, call);
    InsertKeepsJobs(db, call);
    if db1.Some? {
      UpdateNotes(db1.value, call);
    }
  }

  lemma InsertKeepsJobs(db: Db, call: Call)
    ensures var db1 := WithInsert(db, call); db1.Some? ==> db1.value.jobs == db.jobs
  {
    hide Inserts, RowOk;
  }

  lemma UpdateNotes(db: Db, call: Call)
    requires !call.ClaimSubmission?
    ensures var jobs := UpdateRun(db, call).0.jobs; jobs == db.jobs || JobNoted(db.jobs, jobs, call)
  {
    hide Matches, After, UpdateOk, Finish, JobNoted;
    FinishNotes(db, call);
    if call.k in db.runs {
      FinishNotes(db.(runs := db.runs[call.k := After(call, db.runs[call.k])]), call);
    }
  }

  // ---- Job operations -----------------------------------------------------------------------------------------------

  lemma OneJob(db: Db, key: JobKey, j: Job, from: Option<JobState>, to: JobState)
    requires key in db.jobs
    ensures OnlyJob(db, db.(jobs := db.jobs[key := j]), key)
    ensures OnlyJob(db, Logged(db.(jobs := db.jobs[key := j]), key, from, to), key)
  {
  }

  /** The function behind each job operation. */
  lemma Performed(db: Db, op: DbOp)
    ensures match op
      case OpCall(_) => true
      case OpTransition(key, expected, target, reason, coded, stage, now, intact) =>
        Perform(db, op) == Transition(db, key, expected, target, reason, coded, stage, now, intact)
      case OpPlan(key, creator, maxRetries) => Perform(db, op) == Plan(db, key, creator, maxRetries)
      case OpApprove(key, window, intact) => Perform(db, op) == Approve(db, key, window, intact)
      case OpBindManifest(key, path, verified) => Perform(db, op) == BindManifest(db, key, path, verified)
  {
    hide Apply, Transition, Plan, Approve, BindManifest;
  }

  lemma TransitionOnly(db: Db, key: JobKey, expected: JobState, target: JobState, reason: Failure, coded: bool,
                       stage: Option<Stage>, now: Time, intact: bool)
    ensures OnlyJob(db, Transition(db, key, expected, target, reason, coded, stage, now, intact).0, key)
  {
    hide MayMove, CreatorBusy, Moved, OnlyJob, Logged, Active;
    SameOnly(db, key);
    if key in db.jobs {
      OneJob(db, key, Moved(db.jobs[key], target, reason, coded, stage, now), Some(db.jobs[key].state), target);
    }
  }

  lemma TransitionEffects(db: Db, key: JobKey, expected: JobState, target: JobState, reason: Failure, coded: bool,
                          stage: Option<Stage>, now: Time, intact: bool)
    requires Sound(db)
    ensures var d := Transition(db, key, expected, target, reason, coded, stage, now, intact).0;
      Sound(d) && OnlyJob(db, d, key)
  {
    hide Sound, OnlyJob, Perform, Transition;
    var op := OpTransition(key, expected, target, reason, coded, stage, now, intact);
    OpKeepsSound(db, op);
    Performed(db, op);
    TransitionOnly(db, key, expected, target, reason, coded, stage, now, intact);
  }

  /** The edges of the transition graph. */
  const GRAPH: set<(JobState, JobState)> := {
    (DraftState, Validated), (Validated, Planned), (Planned, AwaitingPaidApproval), (AwaitingPaidApproval, Queued),
    (Queued, Running), (Queued, FailedRetryable), (Queued, Canceled), (Running, Succeeded), (Running, FailedRetryable),
    (Running, FailedFinal), (Running, Canceled), (FailedRetryable, Queued), (Succeeded, AwaitingExportApproval),
    (AwaitingExportApproval, Exported)}

  /** The two of them that only an approval may take. */
  const BY_APPROVAL: set<(JobState, JobState)> :=
    {(AwaitingPaidApproval, Queued), (AwaitingExportApproval, Exported)}

  lemma GraphIsAllowed(s: JobState, t: JobState)
    ensures Allowed(s, t) <==> (s, t) in GRAPH
    ensures Reserved(s, t) <==> (s, t) in BY_APPROVAL
  {
  }

  /** An approved window that is open at this time. */
  predicate WithinWindow(w: Option<Window>, now: Time) {
    && w.Some? && w.value.approvedAt <= now
    && (w.value.expires.Some? ==> w.value.approvedAt < w.value.expires.value && now < w.value.expires.value)
  }

  /** The error columns after a move: a failed target stores the reason, and the code if one is given;
      a retry clears both; every other move keeps both. */
  predicate ErrorsMoved(j: Job, m: Job, target: JobState, reason: Failure, coded: bool) {
    if target in {FailedRetryable, FailedFinal} then
      m.errorSummary == Some(reason.summary) && m.errorCode == (if coded then Some(reason.code) else j.errorCode)
    else if j.state.FailedRetryable? && target.Queued? then m.errorSummary.None? && m.errorCode.None?
    else m.errorSummary == j.errorSummary && m.errorCode == j.errorCode
  }

  /** A time column that is set once, by the moves that set it. */
  predicate SetOnce(was: Option<Time>, now: Option<Time>, sets: bool, at: Time) {
    now == if sets && was.None? then Some(at) else was
  }

  /** Every column of a job row after a move. */
  predicate ColumnsMoved(j: Job, m: Job, target: JobState, reason: Failure, coded: bool, stage: Option<Stage>,
                         now: Time)
  {
    && m.state == target && ErrorsMoved(j, m, target, reason, coded)
    && m.attempt == j.attempt + (if j.state.FailedRetryable? && target.Queued? then 1 else 0)
    && m.stage == (if stage.None? then j.stage else stage)
    && SetOnce(j.started, m.started, target.Running?, now)
    && SetOnce(j.finished, m.finished, target in {Succeeded, FailedFinal, Canceled, Exported}, now)
    && m.approval == j.approval && m.superseded == j.superseded && m.artifact == j.artifact
    && m.creator == j.creator && m.maxRetries == j.maxRetries
  }

  /** When a transition is granted. A canceled job is already where a cancellation takes it. */
  ghost predicate MoveGranted(db: Db, key: JobKey, expected: JobState, target: JobState, reason: Failure, coded: bool,
                              stage: Option<Stage>, now: Time, intact: bool)
  {
    && key in db.jobs
    && var j := db.jobs[key];
       || (j.state.Canceled? && target.Canceled?)
       || (&& j.state == expected && !j.superseded && (expected, target) in GRAPH - BY_APPROVAL
           && (intact || (expected, target) == (DraftState, Validated))
           && (target in {Running, Succeeded, AwaitingExportApproval} ==> j.approval.Some?)
           && (target.Running? ==> WithinWindow(j.approval, now))
           && (coded && target in {FailedRetryable, FailedFinal} ==> Strip(reason.code) != "")
           && (coded && target !in {FailedRetryable, FailedFinal} ==> (expected, target) == (FailedRetryable, Queued))
           && (stage.Some? && stage.value.Named? ==> Strip(stage.value.raw) != ""))
  }

  /** A transition is granted exactly as said, and otherwise raises; one that changed something took an
      edge of the graph, logged it and moved the columns; an active job is its creator's only one. */
  lemma TransitionMeans(db: Db, key: JobKey, expected: JobState, target: JobState, reason: Failure, coded: bool,
                        stage: Option<Stage>, now: Time, intact: bool)
    requires Sound(db)
    ensures var out := Transition(db, key, expected, target, reason, coded, stage, now, intact);
      && TransitionMeant(db, key, expected, target, reason, coded, stage, now, out)
      && (out.1.Yes? <==> MoveGranted(db, key, expected, target, reason, coded, stage, now, intact))
  {
    hide Sound, CreatorBusy, Active, Transition, EdgeTaken, MoveGranted;
    TransitionTakes(db, key, expected, target, reason, coded, stage, now, intact);
    TransitionGranted(db, key, expected, target, reason, coded, stage, now, intact);
    TransitionAlone(db, key, expected, target, reason, coded, stage, now, intact);
  }

  lemma TransitionAlone(db: Db, key: JobKey, expected: JobState, target: JobState, reason: Failure, coded: bool,
                        stage: Option<Stage>, now: Time, intact: bool)
    requires Sound(db)
    ensures var out := Transition(db, key, expected, target, reason, coded, stage, now, intact);
      out.1.Yes? && Active(target) ==> key in out.0.jobs && !CreatorBusy(out.0.jobs, key, out.0.jobs[key].creator)
  {
    hide Sound, OnlyJob, CreatorBusy, Active, Transition, EdgeTaken;
    TransitionTakes(db, key, expected, target, reason, coded, stage, now, intact);
    TransitionEffects(db, key, expected, target, reason, coded, stage, now, intact);
    var out := Transition(db, key, expected, target, reason, coded, stage, now, intact);
    if out.1.Yes? && Active(target) {
      ActiveIsAlone(out.0, key);
    }
  }

  lemma TransitionTakes(db: Db, key: JobKey, expected: JobState, target: JobState, reason: Failure, coded: bool,
                        stage: Option<Stage>, now: Time, intact: bool)
    ensures var out := Transition(db, key, expected, target, reason, coded, stage, now, intact);
      && (!out.1.Yes? ==> out.1.Raised? && out.0 == db)
      && (out.1.Yes? ==> key in db.jobs && key in out.0.jobs && out.0.jobs[key].state == target)
      && (out.1.Yes? && out.0 != db ==> EdgeTaken(db, key, expected, target, reason, coded, stage, now, out.0))
      && (out.1.Yes? ==> (out.0 == db <==> db.jobs[key].state.Canceled? && target.Canceled?))
  {
    hide CreatorBusy, Active, Strip, Blank, Moved, ColumnsMoved;
    GraphIsAllowed(expected, target);
    if key in db.jobs {
      MovedColumns(db.jobs[key], target, reason, coded, stage, now);
    }
  }

  lemma MovedColumns(j: Job, target: JobState, reason: Failure, coded: bool, stage: Option<Stage>, now: Time)
    ensures var m := Moved(j, target, reason, coded, stage, now);
      ColumnsMoved(j, m, target, reason, coded, stage, now) && m.state == target && m.approval == j.approval
  {
  }

  lemma TransitionGranted(db: Db, key: JobKey, expected: JobState, target: JobState, reason: Failure, coded: bool,
                          stage: Option<Stage>, now: Time, intact: bool)
    ensures Transition(db, key, expected, target, reason, coded, stage, now, intact).1.Yes?
       <==> MoveGranted(db, key, expected, target, reason, coded, stage, now, intact)
  {
    hide CreatorBusy, Strip, Moved, Logged;
    GraphIsAllowed(expected, target);
  }

  ghost predicate EdgeTaken(was: Db, key: JobKey, expected: JobState, target: JobState, reason: Failure, coded: bool,
                            stage: Option<Stage>, now: Time, db: Db)
  {
    && key in was.jobs && key in db.jobs && was.jobs[key].state == expected
    && (expected, target) in GRAPH - BY_APPROVAL
    && db.jobs.Keys == was.jobs.Keys && ColumnsMoved(was.jobs[key], db.jobs[key], target, reason, coded, stage, now)
    && Log(db, key) == Log(was, key) + [Edge(Some(expected), target)]
    && (target.Running? ==> WithinWindow(db.jobs[key].approval, now))
  }

  ghost predicate TransitionMeant(was: Db, key: JobKey, expected: JobState, target: JobState, reason: Failure,
                                  coded: bool, stage: Option<Stage>, now: Time, out: (Db, Answer))
  {
    && (!out.1.Yes? ==> out.1.Raised? && out.0 == was)
    && (out.1.Yes? ==> key in out.0.jobs && out.0.jobs[key].state == target)
    && (out.1.Yes? && Active(target) ==> !CreatorBusy(out.0.jobs, key, out.0.jobs[key].creator))
    && (out.1.Yes? && out.0 != was ==> EdgeTaken(was, key, expected, target, reason, coded, stage, now, out.0))
  }

  lemma ApproveEffects(db: Db, key: JobKey, window: Window, intact: bool)
    requires Sound(db)
    ensures var d := Approve(db, key, window, intact).0; Sound(d) && OnlyJob(db, d, key)
  {
    OpKeepsSound(db, OpApprove(key, window, intact));
    Performed(db, OpApprove(key, window, intact));
    hide Sound, CreatorBusy, OnlyJob, Logged, Perform;
    SameOnly(db, key);
    if key in db.jobs {
      OneJob(db, key, db.jobs[key].(state := Queued, approval := Some(window)), Some(AwaitingPaidApproval), Queued);
    }
  }

  lemma BindOnly(db: Db, key: JobKey, path: string, verified: bool)
    ensures OnlyJob(db, BindManifest(db, key, path, verified).0, key)
  {
    hide OnlyJob;
    SameOnly(db, key);
    if key in db.jobs {
      OneJob(db, key, db.jobs[key].(artifact := Some(path)), None, Queued);
    }
  }

  lemma BindEffects(db: Db, key: JobKey, path: string, verified: bool)
    requires Sound(db)
    ensures var d := BindManifest(db, key, path, verified).0; Sound(d) && OnlyJob(db, d, key)
  {
    hide Sound, OnlyJob, Perform, BindManifest;
    OpKeepsSound(db, OpBindManifest(key, path, verified));
    Performed(db, OpBindManifest(key, path, verified));
    BindOnly(db, key, path, verified);
  }

  /** The other jobs after planning: as they were, but for the pending ones of the same creator and
      company, which are all superseded. */
  ghost predicate OthersSuperseded(was: Db, db: Db, key: JobKey, creator: string) {
    forall other :: other in db.jobs && other != key ==>
      && other in was.jobs && Log(db, other) == Log(was, other)
      && db.jobs[other] == was.jobs[other].(superseded := db.jobs[other].superseded)
      && (db.jobs[other].superseded <==>
            || was.jobs[other].superseded
            || (other.company == key.company && db.jobs[other].creator == creator
                && db.jobs[other].state in {DraftState, Validated, Planned, AwaitingPaidApproval}))
  }

  /** A planned job: its first attempt, with nothing done yet. */
  predicate Fresh(j: Job, creator: string, maxRetries: nat) {
    && j.state.Planned? && j.attempt == 1 && !j.superseded && j.creator == creator && j.maxRetries == maxRetries
    && j.stage.None? && j.started.None? && j.finished.None? && j.errorCode.None? && j.errorSummary.None?
    && j.approval.None? && j.artifact.None?
  }

  /** Another job of this creator is queued, running or retryable. */
  ghost predicate OtherActive(db: Db, key: JobKey, creator: string) {
    exists other :: other in db.jobs && other != key && db.jobs[other].creator == creator
                    && db.jobs[other].state in {Queued, Running, FailedRetryable}
  }

  /** When an approval is granted. */
  ghost predicate ApprovalGranted(db: Db, key: JobKey, intact: bool) {
    && key in db.jobs && intact && db.jobs[key].state.AwaitingPaidApproval? && !db.jobs[key].superseded
    && db.jobs[key].approval.None? && !OtherActive(db, key, db.jobs[key].creator)
  }

  lemma ApproveGranted(db: Db, key: JobKey, window: Window, intact: bool)
    ensures Approve(db, key, window, intact).1.Yes? <==> ApprovalGranted(db, key, intact)
  {
    hide Logged;
    if key in db.jobs {
      BusyIsActive(db, key, db.jobs[key].creator);
    }
  }

  lemma BusyIsActive(db: Db, key: JobKey, creator: string)
    ensures CreatorBusy(db.jobs, key, creator) <==> OtherActive(db, key, creator)
  {
  }

  lemma PlanEffects(db: Db, key: JobKey, creator: string, maxRetries: nat)
    requires Sound(db)
    ensures var out := Plan(db, key, creator, maxRetries);
      && Sound(out.0)
      && (out.1.Yes? ==>
            && key in out.0.jobs && Fresh(out.0.jobs[key], creator, maxRetries)
            && Log(out.0, key) == [Edge(None, Planned)] && OthersSuperseded(db, out.0, key, creator))
  {
    hide Sound, Plan, Perform, OthersSuperseded, Log, Fresh;
    OpKeepsSound(db, OpPlan(key, creator, maxRetries));
    Performed(db, OpPlan(key, creator, maxRetries));
    PlanSupersedes(db, key, creator, maxRetries);
    if key !in db.jobs {
      NoLog(db, key);
    }
  }

  lemma PlanSupersedes(db: Db, key: JobKey, creator: string, maxRetries: nat)
    ensures var out := Plan(db, key, creator, maxRetries);
      out.1.Yes? ==>
        && key !in db.jobs && key in out.0.jobs && Fresh(out.0.jobs[key], creator, maxRetries)
        && Log(out.0, key) == Log(db, key) + [Edge(None, Planned)]
        && OthersSuperseded(db, out.0, key, creator)
  {
  }

  lemma SameOnly(db: Db, key: JobKey)
    ensures OnlyJob(db, db, key)
  {
  }

  /** An active job is the only one of its creator. */
  lemma ActiveIsAlone(db: Db, key: JobKey)
    requires Sound(db) && key in db.jobs && Active(db.jobs[key].state)
    ensures !CreatorBusy(db.jobs, key, db.jobs[key].creator)
  {
    hide RowsOk, Audited;
  }

  /** The approval edge of an approved job is in its log once. */
  lemma ApprovedOnce(db: Db, key: JobKey)
    requires Sound(db) && key in db.jobs && db.jobs[key].approval.Some?
    ensures CountEdge(Log(db, key), APPROVAL) == 1
  {
    hide RowsOk, OneActive, IsWalk, CountEdge;
  }

  /** A job that is not there has no log. */
  lemma NoLog(db: Db, key: JobKey)
    requires Sound(db) && key !in db.jobs
    ensures Log(db, key) == []
  {
    hide RowsOk, OneActive;
  }
}
