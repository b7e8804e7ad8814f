/**
 The repository and the job service as objects over one database, updated in place statement by
 statement. Each method is one transaction: it keeps the invariant of the tables, leaves the tables
 and gives the answer that the statement functions say, and states when it is granted and what it
 then means for the run, its job and its budgets.
 */
module RunnerRepository {
  import opened Texts
  import opened RunnerTables
  import opened RunnerFencing
  import opened JobService
  import opened RunnerEffects

  class RunnerRepository {
    var db: Db

    ghost predicate Valid()
      reads this
    {
      Sound(db)
    }

    constructor ()
      ensures Valid() && db == Db(map[], map[], map[], map[])
    {
      db := Db(map[], map[], map[], map[]);
    }

    /** One UPDATE of a run row whose WHERE clause already matched, with the triggers in front. */
    method WriteRow(k: RunKey, row: Run) returns (ok: bool)
      requires k in db.runs
      modifies this`db
      ensures ok == UpdateOk(old(db).runs, k, old(db).runs[k], row)
      ensures db == if ok then old(db).(runs := old(db).runs[k := row]) else old(db)
    {
      ok := UpdateOk(db.runs, k, db.runs[k], row);
      if ok {
        db := db.(runs := db.runs[k := row]);
      }
    }

    /** Increment the failure count of a stage, starting at one. */
    method ConsumeStageRetry(job: JobKey, s: RetryStage)
      modifies this`db
      ensures db == Charged(old(db), job, s)
      ensures db.jobs == old(db).jobs && db.runs == old(db).runs && db.logs == old(db).logs
      ensures OneMore(old(db), db, job, s)
    {
      if (job, s) in db.budgets {
        db := db.(budgets := db.budgets[(job, s) := db.budgets[(job, s)] + 1]);
      } else {
        db := db.(budgets := db.budgets[(job, s) := 1]);
      }
    }

    /** The second statement of a call: set the stage of the job row, and its error columns, where it matches. */
    method UpdateJobStage(k: RunKey, matches: bool, stage: Option<Stage>, f: Option<Failure>) returns (answer: Answer)
      requires matches ==> k.job in db.jobs
      modifies this`db
      ensures answer == if matches then Yes else No
      ensures db == if matches then Restaged(old(db), k.job, stage, f) else old(db)
    {
      if !matches {
        return No;
      }
      var j := db.jobs[k.job].(stage := stage);
      if f.Some? {
        j := j.(errorCode := Some(f.value.code), errorSummary := Some(f.value.summary));
      }
      db := db.(jobs := db.jobs[k.job := j]);
      return Yes;
    }

    // ---- Claims -----------------------------------------------------------------------------------------------------

    method ClaimExistingRun(k: RunKey, state: JobState, statuses: set<External>, now: Time, lease: Lease)
      returns (answer: Answer, run: Option<Run>)
      requires Valid()
      modifies this`db
      ensures Valid() && OthersKept(old(db), db, k) && CoreKept(old(db), db)
      ensures (db, answer) == Apply(old(db), ClaimExisting(k, state, statuses, now, lease))
      ensures answer == Yes <==>
        && k in old(db).runs && old(db).runs[k].status.Some? && old(db).runs[k].status.value in statuses
        && Claimable(old(db).runs[k], now, lease.token) && JobActive(old(db), k, state)
      ensures answer != Yes ==> answer == No && db == old(db)
      ensures run.Some? <==> answer == Yes
      ensures run.Some? ==> k in db.runs && run.value == db.runs[k] && SameOutcome(old(db).runs[k], run.value)
      ensures run.Some? ==> Holds(run.value, lease.token) && Uncharged(old(db), db)
    {
      hide UpdateOk, Apply, Sound, OthersKept, CoreKept;
      StatementApplied(db, ClaimExisting(k, state, statuses, now, lease));
      CallEffects(db, ClaimExisting(k, state, statuses, now, lease));
      if k !in db.runs {
        return No, None;
      }
      var r := db.runs[k];
      if || r.status.None? || r.status.value !in statuses || !Claimable(r, now, lease.token)
         || !JobActive(db, k, state)
      {
        return No, None;
      }
      NoTrigger(db, k, r.(lease := Some(lease)));
      var ok := WriteRow(k, r.(lease := Some(lease)));
      answer, run := Raised, None;
      if ok {
        answer, run := Yes, Some(db.runs[k]);
      }
    }

    method ClaimCanceledLookupRun(k: RunKey, now: Time, lease: Lease) returns (answer: Answer, run: Option<Run>)
      requires Valid()
      modifies this`db
      ensures Valid() && OthersKept(old(db), db, k) && CoreKept(old(db), db)
      ensures (db, answer) == Apply(old(db), ClaimCanceledLookup(k, now, lease))
      ensures answer == Yes <==>
        && k in old(db).runs && Unanswered(old(db).runs[k]) && Claimable(old(db).runs[k], now, lease.token)
        && CanceledDispatch(old(db), k)
      ensures answer != Yes ==> answer == No && db == old(db)
      ensures run.Some? <==> answer == Yes
      ensures run.Some? ==> k in db.runs && run.value == db.runs[k] && SameOutcome(old(db).runs[k], run.value)
      ensures run.Some? ==> Holds(run.value, lease.token) && Uncharged(old(db), db)
    {
      hide UpdateOk, Apply, Sound, OthersKept, CoreKept;
      StatementApplied(db, ClaimCanceledLookup(k, now, lease));
      CallEffects(db, ClaimCanceledLookup(k, now, lease));
      if k !in db.runs {
        return No, None;
      }
      var r := db.runs[k];
      if r.ext.Some? || r.status.Some? || !Claimable(r, now, lease.token) || !CanceledDispatch(db, k) {
        return No, None;
      }
      NoTrigger(db, k, r.(lease := Some(lease)));
      var ok := WriteRow(k, r.(lease := Some(lease)));
      answer, run := Raised, None;
      if ok {
        answer, run := Yes, Some(db.runs[k]);
      }
    }

    /** Insert the row if it is missing, lease it, and dispatch a queued job, all or nothing. */
    method ClaimSubmissionRun(k: RunKey, state: JobState, key: string, executor: string, now: Time, lease: Lease)
      returns (answer: Answer, run: Option<Run>)
      requires Valid()
      modifies this`db
      ensures Valid() && OthersKept(old(db), db, k)
      ensures (db, answer) == Apply(old(db), ClaimSubmission(k, state, key, executor, now, lease))
      ensures answer != Yes ==> db == old(db)
      ensures run.Some? <==> answer == Yes
      ensures run.Some? ==> k in db.runs && run.value == db.runs[k] && Holds(run.value, lease.token)
      ensures run.Some? ==> SubmissionJob(old(db), k, state) && JobActive(db, k, Running) && Uncharged(old(db), db)
    {
      hide RowOk, UpdateOk, Apply, Sound, OthersKept, CoreKept, Uncharged, Matches, Log;
      CallEffects(db, ClaimSubmission(k, state, key, executor, now, lease));
      ClaimMeans(db, k, state, key, executor, now, lease);
      if !state.Queued? && !state.Running? {
        assert Apply(db, ClaimSubmission(k, state, key, executor, now, lease)) == (db, Raised) by {
          WrongState(db, k, state, key, executor, now, lease);
        }
        return Raised, None;
      }
      ClaimApplied(db, k, state, key, executor, now, lease);
      var before := db;
      if k !in db.runs && SubmissionJob(db, k, state) {
        var row := SubmissionRow(k, key, executor, now, lease);
        if !RowOk(k, row) {
          return Raised, None;
        }
        db := db.(runs := db.runs[k := row]);
      }
      if k !in db.runs {
        return No, None;
      }
      var r := db.runs[k];
      ClaimMatches(db, k, state, key, executor, now, lease, r);
      if || r.key != key || (r.executor.Some? && r.executor.value != executor)
         || !Claimable(r, now, lease.token) || !SubmissionJob(db, k, state)
      {
        return No, None;
      }
      var ok := WriteRow(k, r.(executor := Coalesce(r.executor, Some(executor)), lease := Some(lease)));
      if !ok {
        db := before;
        return Raised, None;
      }
      if state.Queued? {
        var j := db.jobs[k.job];
        db := db.(jobs := db.jobs[k.job :=
          j.(state := Running, stage := Some(Dispatching), started := Coalesce(j.started, Some(now)))]);
        db := Logged(db, k.job, Some(Queued), Running);
      }
      return Yes, Some(db.runs[k]);
    }

    // ---- Submission -------------------------------------------------------------------------------------------------

    /** The lease is given up for exactly this acceptance, and no other row of the executor has its run. */
    method RecordExternalAcceptance(k: RunKey, token: string, key: string, executor: string, ext: Acceptance)
      returns (answer: Answer)
      requires Valid()
      modifies this`db
      ensures Valid() && Fenced(old(db), db, k, token, answer)
      ensures (db, answer) == Apply(old(db), RecordAcceptance(k, token, key, executor, ext))
      ensures answer != Yes ==> db == old(db)
      ensures answer == Yes ==> Freed(db, k) && db.runs[k].ext == Some(ext) && db.runs[k].status == Some(XAccepted)
      ensures answer == Yes ==> old(db).runs[k].ext.None? && Unowned(db.runs, k, Some(executor), ext.runId)
      ensures answer == Yes ==> db.jobs == old(db).jobs && Uncharged(old(db), db)
    {
      hide UpdateOk, Apply, Sound, Fenced, Holds;
      StatementApplied(db, RecordAcceptance(k, token, key, executor, ext));
      CallFenced(db, RecordAcceptance(k, token, key, executor, ext), token);
      if k !in db.runs || !Holds(db.runs[k], token) || db.runs[k].key != key || db.runs[k].ext.Some? {
        return No;
      }
      var r := db.runs[k];
      var row := r.(ext := Some(ext), executor := Some(executor), status := Some(XAccepted), nextAt := None,
                    errorCode := None,
                    errorSummary := None, retryStage := Poll("unknown"), failures := 0, lease := None);
      AcceptTrigger(db, k, row);
      var ok := WriteRow(k, row);
      answer := if ok then Yes else Raised;
    }

    /** The same for a run found by lookup after the job was canceled, which stays canceled. */
    method RecordLookupAcceptanceForCanceled(k: RunKey, token: string, key: string, executor: string, ext: Acceptance)
      returns (answer: Answer)
      requires Valid()
      modifies this`db
      ensures Valid() && Fenced(old(db), db, k, token, answer)
      ensures (db, answer) == Apply(old(db), RecordLookupAcceptance(k, token, key, executor, ext))
      ensures answer != Yes ==> db == old(db)
      ensures answer == Yes ==> Freed(db, k) && db.runs[k].ext == Some(ext) && db.runs[k].status == Some(XAccepted)
      ensures answer == Yes ==> old(db).runs[k].ext.None? && Unowned(db.runs, k, Some(executor), ext.runId)
      ensures answer == Yes ==> JobIs(db, k, Canceled) && db.jobs == old(db).jobs && Uncharged(old(db), db)
    {
      hide UpdateOk, Apply, Sound, Fenced, Holds;
      StatementApplied(db, RecordLookupAcceptance(k, token, key, executor, ext));
      CallFenced(db, RecordLookupAcceptance(k, token, key, executor, ext), token);
      if || k !in db.runs || !Holds(db.runs[k], token) || db.runs[k].key != key || db.runs[k].ext.Some?
         || !CanceledDispatch(db, k)
      {
        return No;
      }
      var r := db.runs[k];
      var row := r.(ext := Some(ext), executor := Some(executor), status := Some(XAccepted), nextAt := None,
                    errorCode := None,
                    errorSummary := None, retryStage := Poll("unknown"), failures := 0, lease := None);
      AcceptTrigger(db, k, row);
      var ok := WriteRow(k, row);
      answer := if ok then Yes else Raised;
    }

    /** The row can be claimed again at once, is still unanswered, and one submission failure is counted. */
    method RecordSubmitTransportFailure(k: RunKey, token: string, nextAt: Option<Time>, f: Failure)
      returns (answer: Answer)
      requires Valid()
      modifies this`db
      ensures Valid() && Fenced(old(db), db, k, token, answer)
      ensures (db, answer) == Apply(old(db), RecordSubmitFailure(k, token, nextAt, f))
      ensures answer == Yes <==> Held(old(db), k, token) && Unanswered(old(db).runs[k])
      ensures answer != Yes ==> answer == No && db == old(db)
      ensures answer == Yes ==> Freed(db, k) && SameOutcome(old(db).runs[k], db.runs[k]) && db.jobs == old(db).jobs
      ensures answer == Yes ==> OneMore(old(db), db, k.job, Submission)
    {
      hide UpdateOk, Apply, Sound, Fenced, Holds, Charged, OneMore;
      StatementApplied(db, RecordSubmitFailure(k, token, nextAt, f));
      CallFenced(db, RecordSubmitFailure(k, token, nextAt, f), token);
      if k !in db.runs || !Holds(db.runs[k], token) || db.runs[k].ext.Some? || db.runs[k].status.Some? {
        return No;
      }
      var r := db.runs[k];
      var row := r.(errorCode := Some(f.code), errorSummary := Some(f.summary), nextAt := nextAt,
                    failures := r.failures + 1,
                    lease := None);
      NoTrigger(db, k, row);
      ghost var was := db;
      var ok := WriteRow(k, row);
      answer := Raised;
      if ok {
        ghost var mid := db;
        ConsumeStageRetry(k.job, Submission);
        ChargedOnce(was, mid, k.job, Submission);
        answer := Yes;
      }
    }

    // ---- Polls ------------------------------------------------------------------------------------------------------

    /** A terminal status is recorded once: the row was open. A result is written once. */
    method RecordPoll(k: RunKey, token: string, status: External, stage: Option<Stage>, retryStage: RetryStage,
                      consume: bool, nextAt: Option<Time>, completedAt: Option<Time>, cause: Option<Failure>,
                      result: Option<Payload>)
      returns (answer: Answer)
      requires Valid()
      modifies this`db
      ensures Valid() && Fenced(old(db), db, k, token, answer)
      ensures (db, answer)
           == Apply(old(db), RecordPollStatus(k, token, status, stage, retryStage, consume, nextAt, completedAt, cause,
                                              result))
      ensures answer != Yes ==> db == old(db)
      ensures answer == Yes ==> Open(old(db).runs[k]) && Freed(db, k) && db.jobs == old(db).jobs
      ensures answer == Yes ==>
        && db.runs[k].status == Some(status) && db.runs[k].ext == old(db).runs[k].ext
        && db.runs[k].result == Coalesce(old(db).runs[k].result, result)
      ensures answer == Yes && consume ==> OneMore(old(db), db, k.job, retryStage)
      ensures !consume ==> Uncharged(old(db), db)
    {
      hide UpdateOk, Holds, Open, Apply, Sound, Fenced, Charged, OneMore, Coalesce;
      ghost var was := db;
      ghost var call := RecordPollStatus(k, token, status, stage, retryStage, consume, nextAt, completedAt, cause,
                                         result);
      StatementApplied(db, call);
      CallFenced(db, call, token);
      if || k !in db.runs || !Holds(db.runs[k], token) || !Open(db.runs[k])
         || (db.runs[k].result.Some? && db.runs[k].result != result)
      {
        return No;
      }
      var r := db.runs[k];
      var failures :=
        if r.retryStage != retryStage then (if consume then 1 else 0) else if consume then r.failures + 1
          else r.failures;
      var row := r.(status := Some(status), stage := stage, nextAt := nextAt, completedAt := completedAt,
                    result := Coalesce(r.result, result), failures := failures, retryStage := retryStage,
                      lease := None);
      row := if cause.Some? then row.(errorCode := Some(cause.value.code), errorSummary := Some(cause.value.summary))
             else row.(errorCode := None, errorSummary := None);
      var ok := WriteRow(k, row);
      if !ok {
        return Raised;
      }
      if consume {
        ghost var mid := db;
        ConsumeStageRetry(k.job, retryStage);
        ChargedOnce(was, mid, k.job, retryStage);
      }
      return Yes;
    }

    /** The run is still open and free to be polled again, and one failure of its stage is counted. */
    method RecordPollTransportFailure(k: RunKey, token: string, nextAt: Option<Time>, stage: Option<Stage>,
                                      retryStage: RetryStage, 
                                      f: Failure)
      returns (answer: Answer)
      requires Valid()
      modifies this`db
      ensures Valid() && Fenced(old(db), db, k, token, answer)
      ensures (db, answer) == Apply(old(db), RecordPollFailure(k, token, nextAt, stage, retryStage, f))
      ensures answer == Yes <==> Held(old(db), k, token) && old(db).runs[k].ext.Some? && Open(old(db).runs[k])
      ensures answer != Yes ==> answer == No && db == old(db)
      ensures answer == Yes ==> Freed(db, k) && SameOutcome(old(db).runs[k], db.runs[k]) && db.jobs == old(db).jobs
      ensures answer == Yes ==> OneMore(old(db), db, k.job, retryStage)
    {
      hide UpdateOk, Apply, Sound, Fenced, Holds, Charged, OneMore, Open;
      StatementApplied(db, RecordPollFailure(k, token, nextAt, stage, retryStage, f));
      CallFenced(db, RecordPollFailure(k, token, nextAt, stage, retryStage, f), token);
      if k !in db.runs || !Holds(db.runs[k], token) || db.runs[k].ext.None? || !Open(db.runs[k]) {
        return No;
      }
      var r := db.runs[k];
      var row := r.(errorCode := Some(f.code), errorSummary := Some(f.summary), nextAt := nextAt,
                    stage := Coalesce(stage, r.stage), retryStage := retryStage, failures := r.failures + 1,
                      lease := None);
      NoTrigger(db, k, row);
      ghost var was := db;
      var ok := WriteRow(k, row);
      answer := Raised;
      if ok {
        ghost var mid := db;
        ConsumeStageRetry(k.job, retryStage);
        ChargedOnce(was, mid, k.job, retryStage);
        answer := Yes;
      }
    }

    /** The row is parked even if its job no longer runs; then the answer is `No`. */
    method MarkPollReconciliationRequired(k: RunKey, token: string, f: Failure) returns (answer: Answer)
      requires Valid()
      modifies this`db
      ensures Valid() && Fenced(old(db), db, k, token, answer)
      ensures (db, answer) == Apply(old(db), MarkPollReconciliation(k, token, f))
      ensures answer == Yes <==>
        Held(old(db), k, token) && old(db).runs[k].ext.Some? && Open(old(db).runs[k]) && JobIs(old(db), k, Running)
      ensures answer != Raised && Uncharged(old(db), db)
      ensures Held(old(db), k, token) && old(db).runs[k].ext.Some? && Open(old(db).runs[k]) ==>
        Parked(old(db), db, k, ReconciliationRequired)
      ensures answer == Yes ==> db.jobs[k.job].stage == Some(ReconciliationRequired)
    {
      hide UpdateOk, Apply, Sound, Fenced, Holds, Open;
      StatementApplied(db, MarkPollReconciliation(k, token, f));
      CallFenced(db, MarkPollReconciliation(k, token, f), token);
      if k !in db.runs || !Holds(db.runs[k], token) || db.runs[k].ext.None? || !Open(db.runs[k]) {
        return No;
      }
      var r := db.runs[k];
      var row := r.(errorCode := Some(f.code), errorSummary := Some(f.summary), stage := Some(ReconciliationRequired),
                    nextAt := None,
                    failures := r.failures + 1, reconciliations := r.reconciliations + 1, lease := None);
      NoTrigger(db, k, row);
      var ok := WriteRow(k, row);
      answer := Raised;
      if ok {
        answer := UpdateJobStage(k, JobIs(db, k, Running), Some(ReconciliationRequired), None);
      }
    }

    /** Touches no run row at all. */
    method UpdateStage(k: RunKey, stage: Option<Stage>) returns (answer: Answer)
      requires Valid()
      modifies this`db
      ensures Valid() && OthersKept(old(db), db, k) && CoreKept(old(db), db)
      ensures (db, answer) == Apply(old(db), UpdateRunningStage(k, stage))
      ensures answer == Yes <==> JobActive(old(db), k, Running)
      ensures answer != Yes ==> answer == No && db == old(db)
      ensures db.runs == old(db).runs && Uncharged(old(db), db)
      ensures answer == Yes ==> db.jobs[k.job].stage == stage
    {
      hide Sound, OthersKept, CoreKept;
      CallEffects(db, UpdateRunningStage(k, stage));
      answer := UpdateJobStage(k, JobActive(db, k, Running), stage, None);
    }

    // ---- Retry, release and reconciliation --------------------------------------------------------------------------

    /** A retryable row is taken off the schedule and stays retryable. */
    method MarkRetryTaken(k: RunKey, token: string) returns (answer: Answer)
      requires Valid()
      modifies this`db
      ensures Valid() && Fenced(old(db), db, k, token, answer)
      ensures (db, answer) == Apply(old(db), MarkRetryConsumed(k, token))
      ensures answer == Yes <==> Held(old(db), k, token) && old(db).runs[k].status == Some(XFailedRetryable)
      ensures answer != Yes ==> answer == No && db == old(db)
      ensures answer == Yes ==> Freed(db, k) && db.runs[k].nextAt.None? && SameOutcome(old(db).runs[k], db.runs[k])
      ensures db.jobs == old(db).jobs && Uncharged(old(db), db)
    {
      hide UpdateOk, Apply, Sound, Fenced, Holds;
      StatementApplied(db, MarkRetryConsumed(k, token));
      CallFenced(db, MarkRetryConsumed(k, token), token);
      if k !in db.runs || !Holds(db.runs[k], token) || db.runs[k].status != Some(XFailedRetryable) {
        return No;
      }
      var r := db.runs[k];
      var row := r.(nextAt := None, lease := None);
      NoTrigger(db, k, row);
      var ok := WriteRow(k, row);
      answer := if ok then Yes else Raised;
    }

    /** The holder gives the row back, and anyone may claim it at once. */
    method Release(k: RunKey, token: string) returns (answer: Answer)
      requires Valid()
      modifies this`db
      ensures Valid() && Fenced(old(db), db, k, token, answer)
      ensures (db, answer) == Apply(old(db), ReleaseLease(k, token))
      ensures answer == Yes <==> Held(old(db), k, token)
      ensures answer != Yes ==> answer == No && db == old(db)
      ensures answer == Yes ==> Freed(db, k) && SameOutcome(old(db).runs[k], db.runs[k])
      ensures answer == Yes ==> forall now: Time, other: string :: Claimable(db.runs[k], now, other)
      ensures db.jobs == old(db).jobs && Uncharged(old(db), db)
    {
      hide UpdateOk, Apply, Sound, Fenced, Holds;
      StatementApplied(db, ReleaseLease(k, token));
      CallFenced(db, ReleaseLease(k, token), token);
      if k !in db.runs || !Holds(db.runs[k], token) {
        return No;
      }
      var r := db.runs[k];
      var row := r.(lease := None);
      NoTrigger(db, k, row);
      var ok := WriteRow(k, row);
      answer := if ok then Yes else Raised;
    }

    /** Two statements: the run row first; a job row that no longer matches leaves it committed. */
    method MarkClaimedReconciliationRequired(k: RunKey, token: string, f: Failure) returns (answer: Answer)
      requires Valid()
      modifies this`db
      ensures Valid() && Fenced(old(db), db, k, token, answer)
      ensures (db, answer) == Apply(old(db), MarkClaimedReconciliation(k, token, f))
      ensures answer == Yes <==>
        && Held(old(db), k, token)
        && (|| JobIs(old(db), k, Queued) || JobIs(old(db), k, Running) || JobIs(old(db), k, Succeeded)
            || JobIs(old(db), k, FailedRetryable) || JobIs(old(db), k, FailedFinal) || JobIs(old(db), k, Canceled))
      ensures answer != Raised && Uncharged(old(db), db)
      ensures Held(old(db), k, token) ==> Parked(old(db), db, k, ReconciliationRequired)
      ensures answer == Yes ==> db.jobs[k.job].stage == Some(ReconciliationRequired)
    {
      hide UpdateOk, Apply, Sound, Fenced, Holds, JobIs;
      StatementApplied(db, MarkClaimedReconciliation(k, token, f));
      CallFenced(db, MarkClaimedReconciliation(k, token, f), token);
      if k !in db.runs || !Holds(db.runs[k], token) {
        return No;
      }
      var r := db.runs[k];
      var row := r.(errorCode := Some(f.code), errorSummary := Some(f.summary), stage := Some(ReconciliationRequired),
                    nextAt := None,
                    reconciliations := r.reconciliations + 1, lease := None);
      NoTrigger(db, k, row);
      ghost var was := db;
      var ok := WriteRow(k, row);
      answer := Raised;
      if ok {
        SameStates(was, db, k);
        var matches := || JobIs(db, k, Queued) || JobIs(db, k, Running) || JobIs(db, k, Succeeded)
                       || JobIs(db, k, FailedRetryable) || JobIs(db, k, FailedFinal) || JobIs(db, k, Canceled);
        answer := UpdateJobStage(k, matches, Some(ReconciliationRequired), Some(f));
      }
    }

    /** Parks an accepted row under no lease: whoever holds it loses it. */
    method MarkObservedReconciliationRequired(k: RunKey, f: Failure) returns (answer: Answer)
      requires Valid()
      modifies this`db
      ensures Valid() && OthersKept(old(db), db, k) && CoreKept(old(db), db)
      ensures (db, answer) == Apply(old(db), MarkObservedReconciliation(k, f))
      ensures answer == Yes <==>
        && k in old(db).runs && old(db).runs[k].ext.Some?
        && (JobIs(old(db), k, Running) || JobIs(old(db), k, Succeeded) || JobIs(old(db), k, Canceled))
      ensures answer != Raised && Uncharged(old(db), db)
      ensures k in old(db).runs && old(db).runs[k].ext.Some? ==> Parked(old(db), db, k, ReconciliationRequired)
      ensures !(k in old(db).runs && old(db).runs[k].ext.Some?) ==> db == old(db)
    {
      hide UpdateOk, Apply, Sound, OthersKept, CoreKept, Holds, JobIs;
      StatementApplied(db, MarkObservedReconciliation(k, f));
      CallEffects(db, MarkObservedReconciliation(k, f));
      if k !in db.runs || db.runs[k].ext.None? {
        return No;
      }
      var r := db.runs[k];
      var row := r.(errorCode := Some(f.code), errorSummary := Some(f.summary), stage := Some(ReconciliationRequired),
                    nextAt := None,
                    reconciliations := r.reconciliations + 1, lease := None);
      NoTrigger(db, k, row);
      ghost var was := db;
      var ok := WriteRow(k, row);
      answer := Raised;
      if ok {
        SameStates(was, db, k);
        var matches := JobIs(db, k, Running) || JobIs(db, k, Succeeded) || JobIs(db, k, Canceled);
        answer := UpdateJobStage(k, matches, Some(ReconciliationRequired), Some(f));
      }
    }

    /** Parks a dispatch that nobody holds and nobody answered. */
    method QuarantineDispatch(k: RunKey, f: Failure, now: Time) returns (answer: Answer)
      requires Valid()
      modifies this`db
      ensures Valid() && OthersKept(old(db), db, k) && CoreKept(old(db), db)
      ensures (db, answer) == Apply(old(db), QuarantineRunningDispatch(k, f, now))
      ensures answer == Yes <==>
        && k in old(db).runs && Unanswered(old(db).runs[k]) && LeaseFree(old(db).runs[k], now)
        && JobIs(old(db), k, Running) && old(db).jobs[k.job].stage == Some(Dispatching)
      ensures answer != Raised && Uncharged(old(db), db)
      ensures var free := k in old(db).runs && Unanswered(old(db).runs[k]) && LeaseFree(old(db).runs[k], now);
        if free then Parked(old(db), db, k, ReconciliationRequired) else db == old(db)
    {
      hide UpdateOk, Apply, Sound, OthersKept, CoreKept, Holds;
      StatementApplied(db, QuarantineRunningDispatch(k, f, now));
      CallEffects(db, QuarantineRunningDispatch(k, f, now));
      if k !in db.runs || db.runs[k].ext.Some? || db.runs[k].status.Some? || !LeaseFree(db.runs[k], now) {
        return No;
      }
      var r := db.runs[k];
      var row := r.(errorCode := Some(f.code), errorSummary := Some(f.summary), stage := Some(ReconciliationRequired),
                    nextAt := None,
                    reconciliations := r.reconciliations + 1, lease := None);
      NoTrigger(db, k, row);
      var ok := WriteRow(k, row);
      answer := Raised;
      if ok {
        var matches := JobIs(db, k, Running) && db.jobs[k.job].stage == Some(Dispatching);
        answer := UpdateJobStage(k, matches, Some(ReconciliationRequired), Some(f));
      }
    }

    /** The row is inserted if it is missing, then parked if nobody holds it. */
    method QuarantineQueuedJob(k: RunKey, f: Failure) returns (answer: Answer)
      requires Valid()
      modifies this`db
      ensures Valid() && OthersKept(old(db), db, k) && CoreKept(old(db), db)
      ensures (db, answer) == Apply(old(db), QuarantineQueued(k, f))
      ensures answer == Yes ==> JobActive(db, k, Queued) && db.jobs[k.job].stage == Some(ReconciliationRequired)
      ensures answer == Yes ==>
        Freed(db, k) && Unanswered(db.runs[k]) && db.runs[k].stage == Some(ReconciliationRequired)
      ensures answer != Yes ==> db == old(db)
      ensures Uncharged(old(db), db)
    {
      hide UpdateOk, RowOk, Apply, Sound, OthersKept, CoreKept, Uncharged, Unanswered, Freed;
      CallEffects(db, QuarantineQueued(k, f));
      QuarantineMeans(db, k, f);
      QuarantineApplied(db, k, f);
      if !JobActive(db, k, Queued) {
        return No;
      }
      var before := db;
      if k !in db.runs {
        var row := QuarantineRow(k, f);
        if !RowOk(k, row) {
          return Raised;
        }
        db := db.(runs := db.runs[k := row]);
      }
      var r := db.runs[k];
      if r.ext.Some? || r.status.Some? || r.lease.Some? {
        return No;
      }
      var count := if r.stage == Some(ReconciliationRequired) then r.reconciliations else r.reconciliations + 1;
      var ok := WriteRow(k, r.(stage := Some(ReconciliationRequired), errorCode := Some(f.code),
                               errorSummary := Some(f.summary), reconciliations := count));
      if !ok {
        db := before;
        return Raised;
      }
      answer := UpdateJobStage(k, true, Some(ReconciliationRequired), Some(f));
    }

    /** The insert is kept only if the job row matches. */
    method MarkReconciliationRequired(k: RunKey, key: string) returns (answer: Answer)
      requires Valid()
      modifies this`db
      ensures Valid() && OthersKept(old(db), db, k) && CoreKept(old(db), db)
      ensures (db, answer) == Apply(old(db), MarkReconciliation(k, key))
      ensures answer == Yes ==> k in db.runs && JobActive(db, k, Running)
      ensures answer == Yes ==> k in old(db).runs ==> db.runs == old(db).runs
      ensures answer != Yes ==> answer == Raised && db == old(db)
      ensures Uncharged(old(db), db)
    {
      hide RowOk, Apply, Sound, OthersKept, CoreKept, Uncharged, Restaged;
      CallEffects(db, MarkReconciliation(k, key));
      MarkMeans(db, k, key);
      MarkApplied(db, k, key);
      var before := db;
      if k !in db.runs {
        var row := ReconciliationRow(k, key);
        if !RowOk(k, row) {
          return Raised;
        }
        db := db.(runs := db.runs[k := row]);
      }
      answer := UpdateJobStage(k, JobActive(db, k, Running), Some(ReconciliationRequired), None);
      if answer == No {
        db := before;
        return Raised;
      }
    }

    // ---- Cancellation -----------------------------------------------------------------------------------------------

    /** The holder keeps its lease on an open run that is now being canceled. */
    method BeginCancelStage(k: RunKey, token: string) returns (answer: Answer)
      requires Valid()
      modifies this`db
      ensures Valid() && Fenced(old(db), db, k, token, answer)
      ensures (db, answer) == Apply(old(db), BeginCancel(k, token))
      ensures answer == Yes <==> Held(old(db), k, token) && Open(old(db).runs[k])
      ensures answer != Yes ==> answer == No && db == old(db)
      ensures answer == Yes ==>
        Held(db, k, token) && SameOutcome(old(db).runs[k], db.runs[k]) && db.runs[k].retryStage.CancelStage?
      ensures db.jobs == old(db).jobs && Uncharged(old(db), db)
    {
      hide UpdateOk, Apply, Sound, Fenced;
      StatementApplied(db, BeginCancel(k, token));
      CallFenced(db, BeginCancel(k, token), token);
      if k !in db.runs || !Holds(db.runs[k], token) || !Open(db.runs[k]) {
        return No;
      }
      var r := db.runs[k];
      var row := r.(failures := if r.retryStage.CancelStage? then r.failures else 0, retryStage := CancelStage,
                    stage := if r.stage == Some(CancelRetryPending) then r.stage else Some(Canceling));
      NoTrigger(db, k, row);
      var ok := WriteRow(k, row);
      answer := if ok then Yes else Raised;
    }

    /** The cancellation is recorded unless the run ended in another way, which raises. */
    method RecordCanceledRun(k: RunKey, token: string, now: Time) returns (answer: Answer)
      requires Valid()
      modifies this`db
      ensures Valid() && Fenced(old(db), db, k, token, answer)
      ensures (db, answer) == Apply(old(db), RecordRemoteCanceled(k, token, now))
      ensures answer == Yes <==>
        && Held(old(db), k, token) && old(db).runs[k].ext.Some?
        && (old(db).runs[k].status.Some? && Terminal(old(db).runs[k].status.value) ==>
              old(db).runs[k].status.value.XCanceled?)
      ensures answer != Yes ==> db == old(db)
      ensures answer == Yes ==>
        Freed(db, k) && db.runs[k].status == Some(XCanceled) && db.runs[k].ext == old(db).runs[k].ext
      ensures db.jobs == old(db).jobs && Uncharged(old(db), db)
    {
      hide UpdateOk, Apply, Sound, Fenced, Holds;
      StatementApplied(db, RecordRemoteCanceled(k, token, now));
      CallFenced(db, RecordRemoteCanceled(k, token, now), token);
      if k !in db.runs || !Holds(db.runs[k], token) || db.runs[k].ext.None? {
        return No;
      }
      var r := db.runs[k];
      var row := r.(status := Some(XCanceled), nextAt := None, completedAt := Coalesce(r.completedAt, Some(now)),
                    lease := None);
      CancelTrigger(db, k, row);
      var ok := WriteRow(k, row);
      answer := if ok then Yes else Raised;
    }

    /** The run is free for the next attempt to cancel it, and one failure is counted. */
    method RecordCancelTransportFailure(k: RunKey, token: string, retryAt: Time, f: Failure) returns (answer: Answer)
      requires Valid()
      modifies this`db
      ensures Valid() && Fenced(old(db), db, k, token, answer)
      ensures (db, answer) == Apply(old(db), RecordCancelFailure(k, token, retryAt, f))
      ensures answer == Yes <==>
        Held(old(db), k, token) && old(db).runs[k].ext.Some? && old(db).runs[k].status != Some(XCanceled)
      ensures answer != Yes ==> answer == No && db == old(db)
      ensures answer == Yes ==> Freed(db, k) && SameOutcome(old(db).runs[k], db.runs[k]) && db.jobs == old(db).jobs
      ensures answer == Yes ==> OneMore(old(db), db, k.job, CancelStage)
    {
      hide UpdateOk, Apply, Sound, Fenced, Holds, Charged, OneMore;
      StatementApplied(db, RecordCancelFailure(k, token, retryAt, f));
      CallFenced(db, RecordCancelFailure(k, token, retryAt, f), token);
      if || k !in db.runs || !Holds(db.runs[k], token) || db.runs[k].ext.None?
         || db.runs[k].status == Some(XCanceled)
      {
        return No;
      }
      var r := db.runs[k];
      var row := r.(errorCode := Some(f.code), errorSummary := Some(f.summary), stage := Some(CancelRetryPending),
                    nextAt := Some(retryAt), failures := r.failures + 1, lease := None);
      NoTrigger(db, k, row);
      ghost var was := db;
      var ok := WriteRow(k, row);
      answer := Raised;
      if ok {
        ghost var mid := db;
        ConsumeStageRetry(k.job, CancelStage);
        ChargedOnce(was, mid, k.job, CancelStage);
        answer := Yes;
      }
    }

    /** The row is parked even if the job is not canceled; then the answer is `No`. */
    method MarkKnownCancelReconciliationRequired(k: RunKey, token: string, f: Failure) returns (answer: Answer)
      requires Valid()
      modifies this`db
      ensures Valid() && Fenced(old(db), db, k, token, answer)
      ensures (db, answer) == Apply(old(db), MarkKnownCancelReconciliation(k, token, f))
      ensures answer == Yes <==>
        Held(old(db), k, token) && old(db).runs[k].ext.Some? && old(db).runs[k].status != Some(XCanceled)
          && JobIs(old(db), k, Canceled)
      ensures answer != Raised && Uncharged(old(db), db)
      ensures Held(old(db), k, token) && old(db).runs[k].ext.Some? && old(db).runs[k].status != Some(XCanceled) ==>
        Parked(old(db), db, k, CancelReconciliationRequired)
      ensures answer == Yes ==> db.jobs[k.job].stage == Some(CancelReconciliationRequired)
    {
      hide UpdateOk, Apply, Sound, Fenced, Holds;
      StatementApplied(db, MarkKnownCancelReconciliation(k, token, f));
      CallFenced(db, MarkKnownCancelReconciliation(k, token, f), token);
      if || k !in db.runs || !Holds(db.runs[k], token) || db.runs[k].ext.None?
         || db.runs[k].status == Some(XCanceled)
      {
        return No;
      }
      var r := db.runs[k];
      var row := r.(errorCode := Some(f.code), errorSummary := Some(f.summary),
                    stage := Some(CancelReconciliationRequired),
                    nextAt := None, failures := r.failures + 1, reconciliations := r.reconciliations + 1,
                      lease := None);
      NoTrigger(db, k, row);
      var ok := WriteRow(k, row);
      answer := Raised;
      if ok {
        answer := UpdateJobStage(k, JobIs(db, k, Canceled), Some(CancelReconciliationRequired), None);
      }
    }

    /** Parks a row that was never accepted and that nobody holds. */
    method MarkCancelReconciliationRequired(k: RunKey, now: Time) returns (answer: Answer)
      requires Valid()
      modifies this`db
      ensures Valid() && OthersKept(old(db), db, k) && CoreKept(old(db), db)
      ensures (db, answer) == Apply(old(db), MarkCancelReconciliation(k, now))
      ensures answer == Yes <==>
        k in old(db).runs && old(db).runs[k].ext.None? && LeaseFree(old(db).runs[k], now) && JobIs(old(db), k, Canceled)
      ensures answer != Raised && Uncharged(old(db), db)
      ensures var free := k in old(db).runs && old(db).runs[k].ext.None? && LeaseFree(old(db).runs[k], now);
        if free then Parked(old(db), db, k, CancelReconciliationRequired) else db == old(db)
    {
      hide UpdateOk, Apply, Sound, OthersKept, CoreKept, Holds;
      StatementApplied(db, MarkCancelReconciliation(k, now));
      CallEffects(db, MarkCancelReconciliation(k, now));
      if k !in db.runs || db.runs[k].ext.Some? || !LeaseFree(db.runs[k], now) {
        return No;
      }
      var r := db.runs[k];
      var row := r.(stage := Some(CancelReconciliationRequired), reconciliations := r.reconciliations + 1,
                    lease := None);
      NoTrigger(db, k, row);
      var ok := WriteRow(k, row);
      answer := Raised;
      if ok {
        answer := UpdateJobStage(k, JobIs(db, k, Canceled), Some(CancelReconciliationRequired), None);
      }
    }

    /** Parks the lookup of a canceled job that found nothing. */
    method MarkClaimedCancelLookupReconciliation(k: RunKey, token: string, f: Failure) returns (answer: Answer)
      requires Valid()
      modifies this`db
      ensures Valid() && Fenced(old(db), db, k, token, answer)
      ensures (db, answer) == Apply(old(db), MarkClaimedCancelLookup(k, token, f))
      ensures answer == Yes <==> Held(old(db), k, token) && Unanswered(old(db).runs[k]) && JobIs(old(db), k, Canceled)
      ensures answer != Raised && Uncharged(old(db), db)
      ensures Held(old(db), k, token) && Unanswered(old(db).runs[k]) ==>
        Parked(old(db), db, k, CancelReconciliationRequired)
      ensures answer == Yes ==> db.jobs[k.job].stage == Some(CancelReconciliationRequired)
    {
      hide UpdateOk, Apply, Sound, Fenced, Holds;
      StatementApplied(db, MarkClaimedCancelLookup(k, token, f));
      CallFenced(db, MarkClaimedCancelLookup(k, token, f), token);
      if k !in db.runs || !Holds(db.runs[k], token) || db.runs[k].ext.Some? || db.runs[k].status.Some? {
        return No;
      }
      var r := db.runs[k];
      var row := r.(errorCode := Some(f.code), errorSummary := Some(f.summary),
                    stage := Some(CancelReconciliationRequired),
                    nextAt := None, reconciliations := r.reconciliations + 1, lease := None);
      NoTrigger(db, k, row);
      var ok := WriteRow(k, row);
      answer := Raised;
      if ok {
        answer := UpdateJobStage(k, JobIs(db, k, Canceled), Some(CancelReconciliationRequired), None);
      }
    }

    // ---- Outcomes that arrive after a local cancellation ------------------------------------------------------------

    /** An open run is not polled again; a settled one is parked. */
    method ReconcilePoll(k: RunKey, terminal: bool) returns (answer: Answer)
      requires Valid()
      modifies this`db
      ensures Valid() && OthersKept(old(db), db, k) && CoreKept(old(db), db)
      ensures (db, answer) == Apply(old(db), ReconcilePollAfterCancel(k, terminal))
      ensures answer == Yes <==>
        && Freed(old(db), k) && JobIs(old(db), k, Canceled)
        && (if terminal then Settled(old(db).runs[k]) else Open(old(db).runs[k]))
      ensures answer != Yes ==> answer == No && db == old(db)
      ensures answer == Yes ==> Freed(db, k) && db.runs[k].nextAt.None? && SameOutcome(old(db).runs[k], db.runs[k])
      ensures answer == Yes && terminal ==> Parked(old(db), db, k, CancelReconciliationRequired)
      ensures db.jobs == old(db).jobs && Uncharged(old(db), db)
    {
      hide UpdateOk, Apply, Sound, OthersKept, CoreKept, Holds;
      StatementApplied(db, ReconcilePollAfterCancel(k, terminal));
      CallEffects(db, ReconcilePollAfterCancel(k, terminal));
      if || k !in db.runs || db.runs[k].lease.Some?
         || (if terminal then !Settled(db.runs[k]) else !Open(db.runs[k])) || !JobIs(db, k, Canceled)
      {
        return No;
      }
      var r := db.runs[k];
      var row := if terminal
        then r.(stage := Some(CancelReconciliationRequired), nextAt := None, reconciliations := r.reconciliations + 1)
        else r.(nextAt := None);
      NoTrigger(db, k, row);
      var ok := WriteRow(k, row);
      answer := if ok then Yes else Raised;
    }

    /** A settled run of a canceled job that nobody holds is parked. */
    method ReconcileTerminal(k: RunKey, now: Time) returns (answer: Answer)
      requires Valid()
      modifies this`db
      ensures Valid() && OthersKept(old(db), db, k) && CoreKept(old(db), db)
      ensures (db, answer) == Apply(old(db), ReconcileTerminalAfterCancel(k, now))
      ensures answer == Yes <==>
        k in old(db).runs && Settled(old(db).runs[k]) && LeaseFree(old(db).runs[k], now) && JobIs(old(db), k, Canceled)
      ensures answer != Yes ==> answer == No && db == old(db)
      ensures answer == Yes ==> Parked(old(db), db, k, CancelReconciliationRequired)
      ensures db.jobs == old(db).jobs && Uncharged(old(db), db)
    {
      hide UpdateOk, Apply, Sound, OthersKept, CoreKept, Holds;
      StatementApplied(db, ReconcileTerminalAfterCancel(k, now));
      CallEffects(db, ReconcileTerminalAfterCancel(k, now));
      if k !in db.runs || !Settled(db.runs[k]) || !LeaseFree(db.runs[k], now) || !JobIs(db, k, Canceled) {
        return No;
      }
      var r := db.runs[k];
      var row := r.(stage := Some(CancelReconciliationRequired), nextAt := None,
                    reconciliations := r.reconciliations + 1,
                    lease := None);
      NoTrigger(db, k, row);
      var ok := WriteRow(k, row);
      answer := if ok then Yes else Raised;
    }

    /** So is one that the caller holds. */
    method ReconcileClaimedTerminal(k: RunKey, token: string) returns (answer: Answer)
      requires Valid()
      modifies this`db
      ensures Valid() && Fenced(old(db), db, k, token, answer)
      ensures (db, answer) == Apply(old(db), ReconcileClaimedTerminalAfterCancel(k, token))
      ensures answer == Yes <==>
        && Held(old(db), k, token) && old(db).runs[k].status.Some? && Terminal(old(db).runs[k].status.value)
        && JobIs(old(db), k, Canceled)
      ensures answer != Yes ==> answer == No && db == old(db)
      ensures answer == Yes ==> Parked(old(db), db, k, CancelReconciliationRequired)
      ensures db.jobs == old(db).jobs && Uncharged(old(db), db)
    {
      hide UpdateOk, Apply, Sound, Fenced, Holds;
      StatementApplied(db, ReconcileClaimedTerminalAfterCancel(k, token));
      CallFenced(db, ReconcileClaimedTerminalAfterCancel(k, token), token);
      if || k !in db.runs || !Holds(db.runs[k], token) || db.runs[k].status.None?
         || !Terminal(db.runs[k].status.value) || !JobIs(db, k, Canceled)
      {
        return No;
      }
      var r := db.runs[k];
      var row := r.(stage := Some(CancelReconciliationRequired), nextAt := None,
                    reconciliations := r.reconciliations + 1,
                    lease := None);
      NoTrigger(db, k, row);
      var ok := WriteRow(k, row);
      answer := if ok then Yes else Raised;
    }

    /** The run stays open and is not polled again; the failure is noted but not charged. */
    method RecordExhaustedPoll(k: RunKey, token: string, f: Failure) returns (answer: Answer)
      requires Valid()
      modifies this`db
      ensures Valid() && Fenced(old(db), db, k, token, answer)
      ensures (db, answer) == Apply(old(db), RecordExhaustedPollAfterCancel(k, token, f))
      ensures answer == Yes <==> Held(old(db), k, token) && Open(old(db).runs[k]) && JobIs(old(db), k, Canceled)
      ensures answer != Yes ==> answer == No && db == old(db)
      ensures answer == Yes ==> Freed(db, k) && db.runs[k].nextAt.None? && SameOutcome(old(db).runs[k], db.runs[k])
      ensures db.jobs == old(db).jobs && Uncharged(old(db), db)
    {
      hide UpdateOk, Apply, Sound, Fenced, Holds;
      StatementApplied(db, RecordExhaustedPollAfterCancel(k, token, f));
      CallFenced(db, RecordExhaustedPollAfterCancel(k, token, f), token);
      if k !in db.runs || !Holds(db.runs[k], token) || !Open(db.runs[k]) || !JobIs(db, k, Canceled) {
        return No;
      }
      var r := db.runs[k];
      var row := r.(errorCode := Some(f.code), errorSummary := Some(f.summary), nextAt := None,
                    failures := r.failures + 1,
                    reconciliations := r.reconciliations + 1, lease := None);
      NoTrigger(db, k, row);
      var ok := WriteRow(k, row);
      answer := if ok then Yes else Raised;
    }

    // ---- The job service --------------------------------------------------------------------------------------------

    /** `JobService.transition`. */
    method TransitionJob(key: JobKey, expected: JobState, target: JobState, reason: Failure, coded: bool,
                         stage: Option<Stage>, now: Time, intact: bool)
      returns (answer: Answer)
      requires Valid()
      modifies this`db
      ensures Valid() && OnlyJob(old(db), db, key)
      ensures (db, answer) == Transition(old(db), key, expected, target, reason, coded, stage, now, intact)
      ensures answer == Yes <==> MoveGranted(old(db), key, expected, target, reason, coded, stage, now, intact)
      ensures TransitionMeant(old(db), key, expected, target, reason, coded, stage, now, (db, answer))
    {
      TransitionEffects(db, key, expected, target, reason, coded, stage, now, intact);
      TransitionMeans(db, key, expected, target, reason, coded, stage, now, intact);
      hide Sound, OnlyJob, CreatorBusy, Active, MayMove, Moved, Logged, TransitionMeant, MoveGranted;
      ghost var was := db;
      if key !in db.jobs {
        return Raised;
      }
      var j := db.jobs[key];
      if j.state.Canceled? && target.Canceled? {
        return Yes;
      }
      if j.state != expected || !MayMove(j, target, reason, coded, stage, now, intact) {
        return Raised;
      }
      if Active(target) && !Active(j.state) && CreatorBusy(db.jobs, key, j.creator) {
        return Raised;
      }
      db := db.(jobs := db.jobs[key := Moved(j, target, reason, coded, stage, now)]);
      db := Logged(db, key, Some(j.state), target);
      assert (db, Yes) == Transition(was, key, expected, target, reason, coded, stage, now, intact);
      return Yes;
    }

    /** `approve_job`: the one approval edge in the log of a job. */
    method ApproveJob(key: JobKey, window: Window, intact: bool) returns (answer: Answer)
      requires Valid()
      modifies this`db
      ensures Valid() && OnlyJob(old(db), db, key)
      ensures (db, answer) == Approve(old(db), key, window, intact)
      ensures answer != Yes ==> answer == Raised && db == old(db)
      ensures answer == Yes <==> ApprovalGranted(old(db), key, intact)
      ensures answer == Yes ==>
        db.jobs == old(db).jobs[key := old(db).jobs[key].(state := Queued, approval := Some(window))]
      ensures answer == Yes ==> Log(db, key) == Log(old(db), key) + [APPROVAL] && CountEdge(Log(db, key), APPROVAL) == 1
      ensures answer == Yes ==> !CreatorBusy(db.jobs, key, db.jobs[key].creator)
    {
      ApproveEffects(db, key, window, intact);
      ApproveGranted(db, key, window, intact);
      hide Sound, OnlyJob, CreatorBusy, CountEdge, ApprovalGranted;
      ghost var was := db;
      if key !in db.jobs || !db.jobs[key].state.AwaitingPaidApproval? || db.jobs[key].superseded || !intact {
        return Raised;
      }
      var j := db.jobs[key];
      if j.approval.Some? || CreatorBusy(db.jobs, key, j.creator) {
        return Raised;
      }
      db := db.(jobs := db.jobs[key := j.(state := Queued, approval := Some(window))]);
      db := Logged(db, key, Some(AwaitingPaidApproval), Queued);
      assert (db, Yes) == Approve(was, key, window, intact);
      ActiveIsAlone(db, key);
      ApprovedOnce(db, key);
      return Yes;
    }

    /** `plan_job`: pending jobs of the same creator and company are superseded, then the job is inserted. */
    method PlanJob(key: JobKey, creator: string, maxRetries: nat) returns (answer: Answer)
      requires Valid()
      modifies this`db
      ensures Valid()
      ensures (db, answer) == Plan(old(db), key, creator, maxRetries)
      ensures answer == Yes <==> forall other :: other in old(db).jobs ==> other.job != key.job
      ensures answer != Yes ==> answer == Raised && db == old(db)
      ensures answer == Yes ==>
        key in db.jobs && Fresh(db.jobs[key], creator, maxRetries) && Log(db, key) == [Edge(None, Planned)]
      ensures answer == Yes ==> OthersSuperseded(old(db), db, key, creator)
      ensures db.runs == old(db).runs && Uncharged(old(db), db)
    {
      PlanEffects(db, key, creator, maxRetries);
      hide Sound, OthersSuperseded, Logged, Log, Pending, Fresh;
      ghost var was := db;
      if exists other :: other in db.jobs && other.job == key.job {
        return Raised;
      }
      var jobs := map other | other in db.jobs ::
        if other.company == key.company && db.jobs[other].creator == creator && Pending(db.jobs[other].state)
        then db.jobs[other].(superseded := true) else db.jobs[other];
      db := db.(jobs := jobs);
      db := db.(jobs := db.jobs[key := NewJob(creator, maxRetries)]);
      db := Logged(db, key, None, Planned);
      assert (db, Yes) == Plan(was, key, creator, maxRetries);
      return Yes;
    }

    /** `bind_artifact_manifest`: a bound manifest never changes. */
    method BindArtifactManifest(key: JobKey, path: string, verified: bool) returns (answer: Answer)
      requires Valid()
      modifies this`db
      ensures Valid() && OnlyJob(old(db), db, key) && db.logs == old(db).logs
      ensures (db, answer) == BindManifest(old(db), key, path, verified)
      ensures answer == Yes <==>
        && key in old(db).jobs && old(db).jobs[key].state.Succeeded?
        && (if old(db).jobs[key].artifact.Some? then old(db).jobs[key].artifact == Some(path)
            else verified && !old(db).jobs[key].superseded)
      ensures answer == Yes ==> key in db.jobs && db.jobs[key].artifact == Some(path)
      ensures answer != Yes ==> answer == Raised && db == old(db)
      ensures key in old(db).jobs && old(db).jobs[key].artifact.Some? ==> db == old(db)
      ensures answer == Yes && db != old(db) ==>
        verified && !old(db).jobs[key].superseded && db.jobs[key] == old(db).jobs[key].(artifact := Some(path))
    {
      BindEffects(db, key, path, verified);
      hide Sound, OnlyJob;
      if key !in db.jobs || !db.jobs[key].state.Succeeded? {
        return Raised;
      }
      var j := db.jobs[key];
      if j.artifact.Some? {
        return if j.artifact.value == path then Yes else Raised;
      }
      if !verified || j.superseded {
        return Raised;
      }
      db := db.(jobs := db.jobs[key := j.(artifact := Some(path))]);
      return Yes;
    }
  }
}
