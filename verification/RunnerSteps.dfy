/**
 What each step of the dispatch protocol does, column by column, in the tables of reachable states:
 which row changes and how, what is charged, where the job goes, and with what the runner goes on.
 */
module RunnerSteps {
  import opened Texts
  import opened RunnerTables
  import opened RunnerFencing
  import opened JobService
  import opened RunnerProtocol
  import opened RunnerRows
  import opened RunnerAgreement
  import opened RunnerEffects

  /** One runner goes on with `l`; the other runners and the provider are as they were. */
  predicate GoesOn(w: World, v: World, r: nat, l: Local) {
    v.runners == w.runners[r := l] && v.provider == w.provider
  }

  /** One row of the tables, and nothing of the jobs, changed. */
  predicate OnlyRow(was: Db, db: Db, k: RunKey, row: Run) {
    db.runs == was.runs[k := row] && db.jobs == was.jobs && db.logs == was.logs
  }

  /** The plan of the job allows one failure more than these. */
  predicate Allows(db: Db, job: JobKey, failures: nat) {
    job in db.jobs && failures + 1 <= db.jobs[job].maxRetries
  }

  predicate HeldOpen(db: Db, k: RunKey, token: string) {
    k in db.runs && Holds(db.runs[k], token) && db.runs[k].status in {Some(XAccepted), Some(XRunning)}
  }

  lemma ShapedRow(db: Db, k: RunKey)
    requires Shaped(db) && k in db.runs
    ensures Tidy(db.runs[k]) && RowOk(k, db.runs[k])
  {
  }

  // ---- Polls --------------------------------------------------------------------------------------------------------

  /** A status recorded by the holder of an open row: its columns, the lease given up, and one failure
      of the stage charged if asked. Failures in a row are counted per stage. */
  lemma PollRecorded(db: Db, k: RunKey, token: string, status: External, stage: Option<Stage>, s: RetryStage,
                     consume: bool, nextAt: Option<Time>, completedAt: Option<Time>, f: Option<Failure>,
                     result: Option<Payload>)
    requires Shaped(db) && HeldOpen(db, k, token)
    requires db.runs[k].status == Some(XRunning) ==> !status.XAccepted?
    ensures var call, r := RecordPollStatus(k, token, status, stage, s, consume, nextAt, completedAt, f, result),
      db.runs[k];
      var out := Apply(db, call);
      && out.1.Yes?
      && OnlyRow(db, out.0, k,
                 r.(status := Some(status), stage := stage, nextAt := nextAt, completedAt := completedAt,
                    errorCode := if f.None? then None else Some(f.value.code),
                    errorSummary := if f.None? then None else Some(f.value.summary), result := result,
                    failures := (if r.retryStage == s then r.failures else 0) + (if consume then 1 else 0),
                    retryStage := s, lease := None))
      && (if consume then OneMore(db, out.0, k.job, s) else Uncharged(db, out.0))
  {
    hide Shaped, Apply, KeyText, Unowned, Sound, OnlyJob;
    ShapedRow(db, k);
    StatementApplied(db, RecordPollStatus(k, token, status, stage, s, consume, nextAt, completedAt, f, result));
  }

  /** A runner without the lease, or with a row that is no longer open, records no status. */
  lemma PollRefusedBy(db: Db, k: RunKey, token: string, status: External, stage: Option<Stage>, s: RetryStage,
                      consume: bool, nextAt: Option<Time>, completedAt: Option<Time>, f: Option<Failure>,
                      result: Option<Payload>)
    requires !HeldOpen(db, k, token)
    ensures Apply(db, RecordPollStatus(k, token, status, stage, s, consume, nextAt, completedAt, f, result)) == (db, No)
  {
    hide Apply, KeyText, Unowned, UpdateOk;
    StatementApplied(db, RecordPollStatus(k, token, status, stage, s, consume, nextAt, completedAt, f, result));
  }

  /** A poll that raised. A transient failure within the budget leaves the run open, charges the stage
      of the row the runner holds once, and is polled again at the given time; one beyond the budget
      changes nothing; a failure that is not transient ends the run without a charge, and the runner
      goes on to fail the job for good. */
  lemma RaiseDecided(w: World, r: nat, transient: bool, f: Failure, nextAt: Time, now: Time)
    requires Shaped(w.db) && LocalOf(w, r).PollRefused? && HeldOpen(w.db, LocalOf(w, r).k, LocalOf(w, r).token)
    ensures var l, v := LocalOf(w, r), Next(w, RecordRaise(r, transient, f, nextAt, now));
      var row := w.db.runs[l.k];
      if transient && !Allows(w.db, l.k.job, l.count) then v == w
      else if transient then
        && OnlyRow(w.db, v.db, l.k,
                   row.(errorCode := Some(f.code), errorSummary := Some(f.summary), nextAt := Some(nextAt),
                        stage := if l.row.stage.None? then row.stage else l.row.stage,
                        retryStage := l.row.retryStage, failures := row.failures + 1, lease := None))
        && OneMore(w.db, v.db, l.k.job, l.row.retryStage) && GoesOn(w, v, r, Idle)
      else
        && OnlyRow(w.db, v.db, l.k,
                   row.(status := Some(XFailedFinal), stage := l.row.stage, nextAt := None, completedAt := Some(now),
                        errorCode := Some(f.code), errorSummary := Some(f.summary),
                        failures := if row.retryStage == l.row.retryStage then row.failures else 0,
                        retryStage := l.row.retryStage, lease := None))
        && Uncharged(w.db, v.db) && GoesOn(w, v, r, Polled(l.k, FailedFinal, f, l.row.stage))
  {
    hide Shaped, Apply, KeyText, Unowned;
    var l := LocalOf(w, r);
    ShapedRow(w.db, l.k);
    if transient {
      StatementApplied(w.db, RecordPollFailure(l.k, l.token, Some(nextAt), l.row.stage, l.row.retryStage, f));
    } else {
      PollRecorded(w.db, l.k, l.token, XFailedFinal, l.row.stage, l.row.retryStage, false, None, Some(now), Some(f),
                   None);
    }
  }

  /** A failing report. A retryable and transient one within the budget ends the run retryable, to be
      retried at the given time; every other one ends it for good, now. The stage it names is charged
      exactly if it is retryable and transient. */
  lemma ReportDecided(w: World, r: nat, stage: Option<Stage>, nextAt: Time, now: Time)
    requires Shaped(w.db) && LocalOf(w, r).PollCounted? && HeldOpen(w.db, LocalOf(w, r).k, LocalOf(w, r).token)
    ensures var l, v := LocalOf(w, r), Next(w, RecordReport(r, stage, nextAt, now));
      var row, report, s := w.db.runs[l.k], l.report, Poll(l.report.stage);
      var charged := report.retryable && report.transient;
      var again := charged && Allows(w.db, l.k.job, l.count);
      && OnlyRow(w.db, v.db, l.k,
                 row.(status := Some(if again then XFailedRetryable else XFailedFinal), stage := stage,
                      nextAt := if again then Some(nextAt) else None,
                      completedAt := if again then None else Some(now),
                      errorCode := Some(report.failure.code), errorSummary := Some(report.failure.summary),
                      failures := (if row.retryStage == s then row.failures else 0) + (if charged then 1 else 0),
                      retryStage := s, lease := None))
      && (if charged then OneMore(w.db, v.db, l.k.job, s) else Uncharged(w.db, v.db))
      && GoesOn(w, v, r, Polled(l.k, if again then FailedRetryable else FailedFinal, report.failure, stage))
  {
    hide Shaped, Apply, KeyText, Unowned, RowOk, OneMore, UpdateOk, Matches, After;
    var l := LocalOf(w, r);
    ShapedRow(w.db, l.k);
    var again := l.report.retryable && l.report.transient && Allows(w.db, l.k.job, l.count);
    PollRecorded(w.db, l.k, l.token, if again then XFailedRetryable else XFailedFinal, stage, Poll(l.report.stage),
                 l.report.retryable && l.report.transient, if again then Some(nextAt) else None,
                 if again then None else Some(now), Some(l.report.failure), None);
  }

  lemma NoSecondAcceptance(db: Db, k: RunKey, token: string, stage: Option<Stage>, s: RetryStage, nextAt: Time,
                           note: Option<Failure>)
    requires Shaped(db) && HeldOpen(db, k, token) && db.runs[k].status == Some(XRunning)
    ensures Apply(db, RecordPollStatus(k, token, XAccepted, stage, s, false, Some(nextAt), None, note, None))
         == (db, Raised)
  {
    hide Shaped, Apply, KeyText, Unowned, RowOk;
    ShapedRow(db, k);
    StatementApplied(db, RecordPollStatus(k, token, XAccepted, stage, s, false, Some(nextAt), None, note, None));
  }

  /** A run still under way is noted and polled again; a row that runs is never accepted once more. */
  lemma LiveDecided(w: World, r: nat, status: External, stage: Option<Stage>, at: string, nextAt: Time,
                    note: Option<Failure>)
    requires Shaped(w.db) && LocalOf(w, r).Polling? && HeldOpen(w.db, LocalOf(w, r).k, LocalOf(w, r).token)
    requires status in {XAccepted, XRunning}
    ensures var l, v := LocalOf(w, r), Next(w, PollLive(r, status, stage, at, nextAt, note));
      var row := w.db.runs[l.k];
      if row.status == Some(XRunning) && status.XAccepted? then v == w.(runners := w.runners[r := Idle])
      else
        && OnlyRow(w.db, v.db, l.k,
                   row.(status := Some(status), stage := stage, nextAt := Some(nextAt), completedAt := None,
                        errorCode := if note.None? then None else Some(note.value.code),
                        errorSummary := if note.None? then None else Some(note.value.summary),
                        failures := if row.retryStage == Poll(at) then row.failures else 0, retryStage := Poll(at),
                        lease := None))
        && Uncharged(w.db, v.db) && GoesOn(w, v, r, Idle)
  {
    hide Shaped, Apply, KeyText, Unowned, RowOk, OneMore, UpdateOk, Matches, After;
    var l := LocalOf(w, r);
    ShapedRow(w.db, l.k);
    if w.db.runs[l.k].status == Some(XRunning) && status.XAccepted? {
      NoSecondAcceptance(w.db, l.k, l.token, stage, Poll(at), nextAt, note);
    } else {
      PollRecorded(w.db, l.k, l.token, status, stage, Poll(at), false, Some(nextAt), None, note, None);
    }
  }

  /** A run that ended, with a result or canceled, is recorded and the runner goes on to end the job so. */
  lemma EndDecided(w: World, r: nat, result: Option<Payload>, stage: Option<Stage>, at: string, now: Time)
    requires Shaped(w.db) && LocalOf(w, r).Polling? && HeldOpen(w.db, LocalOf(w, r).k, LocalOf(w, r).token)
    ensures var l := LocalOf(w, r);
      var row := w.db.runs[l.k];
      var v := Next(w, if result.Some? then PollSucceeds(r, stage, at, now, result.value)
                       else PollCanceled(r, stage, at, now));
      && OnlyRow(w.db, v.db, l.k,
                 row.(status := Some(if result.Some? then XSucceeded else XCanceled), stage := stage, nextAt := None,
                      completedAt := Some(now), errorCode := None, errorSummary := None, result := result,
                      failures := if row.retryStage == Poll(at) then row.failures else 0, retryStage := Poll(at),
                      lease := None))
      && Uncharged(w.db, v.db)
      && GoesOn(w, v, r, Polled(l.k, if result.Some? then Succeeded else Canceled,
                                Failure("", if result.Some? then "external execution succeeded"
                                            else "external execution canceled"), stage))
  {
    hide Shaped, Apply, KeyText, Unowned, RowOk, OneMore, UpdateOk, Matches, After;
    var l := LocalOf(w, r);
    ShapedRow(w.db, l.k);
    PollRecorded(w.db, l.k, l.token, if result.Some? then XSucceeded else XCanceled, stage, Poll(at), false, None,
                 Some(now), None, result);
  }

  /** A runner that lost its lease, or whose row is no longer open, records nothing from its poll and
      is done. */
  lemma LostPoll(w: World, s: Step, r: nat)
    requires match s
      case PollLive(q, status, _, _, _, _) => q == r && LocalOf(w, r).Polling? && status in {XAccepted, XRunning}
      case PollSucceeds(q, _, _, _, _) => q == r && LocalOf(w, r).Polling?
      case PollCanceled(q, _, _, _) => q == r && LocalOf(w, r).Polling?
      case RecordReport(q, _, _, _) => q == r && LocalOf(w, r).PollCounted?
      case RecordRaise(q, transient, _, _, _) =>
        && q == r && LocalOf(w, r).PollRefused?
        && (transient ==> Allows(w.db, LocalOf(w, r).k.job, LocalOf(w, r).count))
      case _ => false
    requires !HeldOpen(w.db, LocalOf(w, r).k, LocalOf(w, r).token)
    ensures Next(w, s) == w.(runners := w.runners[r := Idle])
  {
    var l := LocalOf(w, r);
    hide Apply, Matches, After, UpdateOk;
    match s
    case PollLive(_, status, stage, at, nextAt, note) =>
      PollRefusedBy(w.db, l.k, l.token, status, stage, Poll(at), false, Some(nextAt), None, note, None);
    case PollSucceeds(_, stage, at, now, result) =>
      PollRefusedBy(w.db, l.k, l.token, XSucceeded, stage, Poll(at), false, None, Some(now), None, Some(result));
    case PollCanceled(_, stage, at, now) =>
      PollRefusedBy(w.db, l.k, l.token, XCanceled, stage, Poll(at), false, None, Some(now), None, None);
    case RecordReport(_, stage, nextAt, now) =>
      var again := l.report.retryable && l.report.transient && Allows(w.db, l.k.job, l.count);
      PollRefusedBy(w.db, l.k, l.token, if again then XFailedRetryable else XFailedFinal, stage, Poll(l.report.stage),
                    l.report.retryable && l.report.transient, if again then Some(nextAt) else None,
                    if again then None else Some(now), Some(l.report.failure), None);
    case RecordRaise(_, transient, f, nextAt, now) =>
      if transient {
        LostFailure(w.db, l.k, l.token, nextAt, l.row.stage, l.row.retryStage, f);
      } else {
        PollRefusedBy(w.db, l.k, l.token, XFailedFinal, l.row.stage, l.row.retryStage, false, None, Some(now), Some(f),
                      None);
      }
  }

  lemma LostFailure(db: Db, k: RunKey, token: string, nextAt: Time, stage: Option<Stage>, s: RetryStage, f: Failure)
    requires !HeldOpen(db, k, token)
    ensures Apply(db, RecordPollFailure(k, token, Some(nextAt), stage, s, f)) == (db, No)
  {
    hide Apply, KeyText, Unowned, UpdateOk;
    StatementApplied(db, RecordPollFailure(k, token, Some(nextAt), stage, s, f));
  }

  // ---- Failures counted ---------------------------------------------------------------------------------------------

  /** A failing call reads the failures charged so far to the stage it failed in: submission, the stage
      reported, the stage the held row was in, or cancellation. */
  lemma FailureCounted(w: World, r: nat, report: Report)
    requires !LocalOf(w, r).Idle?
    ensures var l := LocalOf(w, r);
      var charged := (s: RetryStage) => if (l.k.job, s) in w.db.budgets then w.db.budgets[(l.k.job, s)] else 0;
      && (l.Launching? ==>
            Next(w, SubmitFails(r)) == w.(runners := w.runners[r := SubmitCounted(l.k, l.token, charged(Submission))]))
      && (l.Polling? ==>
            && Next(w, PollReports(r, report))
            == w.(runners := w.runners[r := PollCounted(l.k, l.token, report, charged(Poll(report.stage)))])
            && Next(w, PollRaises(r))
            == w.(runners := w.runners[r := PollRefused(l.k, l.token, l.row, charged(l.row.retryStage))]))
      && (l.CancelBegun? ==>
            Next(w, CancelFails(r)) == w.(runners := w.runners[r := CancelCounted(l.k, l.token, charged(CancelStage))]))
  {
  }

  /** A submission that failed within the budget is charged and tried again at the given time, the row
      unanswered; beyond the budget, or without the lease, nothing changes. */
  lemma SubmitFailureDecided(w: World, r: nat, nextAt: Time, f: Failure)
    requires Shaped(w.db) && LocalOf(w, r).SubmitCounted?
    ensures var l, v := LocalOf(w, r), Next(w, RecordSubmitFails(r, nextAt, f));
      if !Allows(w.db, l.k.job, l.count) then v == w
      else if !Held(w.db, l.k, l.token) || !Unanswered(w.db.runs[l.k]) then v == w.(runners := w.runners[r := Idle])
      else
        && OnlyRow(w.db, v.db, l.k,
                   w.db.runs[l.k].(errorCode := Some(f.code), errorSummary := Some(f.summary), nextAt := Some(nextAt),
                                   failures := w.db.runs[l.k].failures + 1, lease := None))
        && OneMore(w.db, v.db, l.k.job, Submission) && GoesOn(w, v, r, Idle)
  {
    hide Shaped, Apply, KeyText, Unowned;
    var l := LocalOf(w, r);
    StatementApplied(w.db, RecordSubmitFailure(l.k, l.token, Some(nextAt), f));
    if l.k in w.db.runs {
      ShapedRow(w.db, l.k);
    }
  }

  /** The same for a failed cancellation of an accepted run. */
  lemma CancelFailureDecided(w: World, r: nat, retryAt: Time, f: Failure)
    requires Shaped(w.db) && LocalOf(w, r).CancelCounted?
    ensures var l, v := LocalOf(w, r), Next(w, RecordCancelFails(r, retryAt, f));
      if !Allows(w.db, l.k.job, l.count) then v == w
      else if || !Held(w.db, l.k, l.token) || w.db.runs[l.k].ext.None? || w.db.runs[l.k].status == Some(XCanceled)
      then v == w.(runners := w.runners[r := Idle])
      else
        && OnlyRow(w.db, v.db, l.k,
                   w.db.runs[l.k].(errorCode := Some(f.code), errorSummary := Some(f.summary),
                                   stage := Some(CancelRetryPending), nextAt := Some(retryAt),
                                   failures := w.db.runs[l.k].failures + 1, lease := None))
        && OneMore(w.db, v.db, l.k.job, CancelStage) && GoesOn(w, v, r, Idle)
  {
    hide Shaped, Apply, KeyText, Unowned;
    var l := LocalOf(w, r);
    StatementApplied(w.db, RecordCancelFailure(l.k, l.token, retryAt, f));
    if l.k in w.db.runs {
      ShapedRow(w.db, l.k);
    }
  }

  // ---- The job follows ----------------------------------------------------------------------------------------------

  /** The job took this edge if the transition is granted, and otherwise nothing changed. */
  ghost predicate JobMoves(was: Db, db: Db, key: JobKey, s: JobState, t: JobState, f: Failure, stage: Option<Stage>,
                           now: Time, intact: bool)
  {
    var coded := t in {FailedRetryable, FailedFinal};
    if !MoveGranted(was, key, s, t, f, coded, stage, now, intact) then db == was
    else if was.jobs[key].state.Canceled? && t.Canceled? then db == was
    else OnlyJob(was, db, key) && EdgeTaken(was, key, s, t, f, coded, stage, now, db)
  }

  lemma JobMoved(w: World, r: nat, k: RunKey, s: JobState, t: JobState, f: Failure, stage: Option<Stage>, now: Time,
                 intact: bool, next: Local)
    ensures var v := MoveJob(w, r, k, s, t, f, stage, now, intact, next);
      && JobMoves(w.db, v.db, k.job, s, t, f, stage, now, intact)
      && GoesOn(w, v, r, if MoveGranted(w.db, k.job, s, t, f, t in {FailedRetryable, FailedFinal}, stage, now, intact)
                         then next else Idle)
  {
    var coded := t in {FailedRetryable, FailedFinal};
    TransitionOnly(w.db, k.job, s, t, f, coded, stage, now, intact);
    TransitionGranted(w.db, k.job, s, t, f, coded, stage, now, intact);
    TransitionTakes(w.db, k.job, s, t, f, coded, stage, now, intact);
    hide MoveGranted, EdgeTaken, OnlyJob, Transition;
  }

  /** The outcome of a poll moves the running job to the state it ended in, with its failure and stage. */
  lemma OutcomeDecided(w: World, r: nat, now: Time, intact: bool)
    requires LocalOf(w, r).Polled?
    ensures var l, v := LocalOf(w, r), Next(w, ApplyOutcome(r, now, intact));
      JobMoves(w.db, v.db, l.k.job, Running, l.target, l.failure, l.stage, now, intact) && GoesOn(w, v, r, Idle)
  {
    hide MoveJob, JobMoves, MoveGranted;
    var l := LocalOf(w, r);
    JobMoved(w, r, l.k, Running, l.target, l.failure, l.stage, now, intact, Idle);
  }

  /** A retry requeues the job, one attempt later, and then frees the row of the attempt that failed. */
  lemma RetryDecided(w: World, r: nat, now: Time, intact: bool)
    requires LocalOf(w, r).Requeueing?
    ensures var l, v := LocalOf(w, r), Next(w, Retry(r, now, intact));
      var f := Failure("", "job retry requested through Worker API");
      && JobMoves(w.db, v.db, l.k.job, FailedRetryable, Queued, f, None, now, intact)
      && GoesOn(w, v, r, if MoveGranted(w.db, l.k.job, FailedRetryable, Queued, f, false, None, now, intact)
                         then Requeued(l.k, l.token) else Idle)
  {
    hide MoveJob, JobMoves, MoveGranted;
    var l := LocalOf(w, r);
    JobMoved(w, r, l.k, FailedRetryable, Queued, Failure("", "job retry requested through Worker API"), None, now,
             intact, Requeued(l.k, l.token));
  }

  lemma ConsumeDecided(w: World, r: nat)
    requires Shaped(w.db) && LocalOf(w, r).Requeued?
    ensures var l, v := LocalOf(w, r), Next(w, Consume(r));
      if !Held(w.db, l.k, l.token) || w.db.runs[l.k].status != Some(XFailedRetryable)
      then v == w.(runners := w.runners[r := Idle])
      else
        && OnlyRow(w.db, v.db, l.k, w.db.runs[l.k].(nextAt := None, lease := None))
        && Uncharged(w.db, v.db) && GoesOn(w, v, r, Idle)
  {
    hide Shaped, Apply, KeyText, Unowned;
    var l := LocalOf(w, r);
    StatementApplied(w.db, MarkRetryConsumed(l.k, l.token));
    if l.k in w.db.runs {
      ShapedRow(w.db, l.k);
    }
  }

  /** The acceptance came after the submission, inside the job's approved window. */
  predicate InAuthority(db: Db, job: JobKey, submitted: Option<Time>, accepted: Time, observed: Time) {
    && job in db.jobs && db.jobs[job].approval.Some? && submitted.Some?
    && var window := db.jobs[job].approval.value;
       && window.approvedAt <= submitted.value <= accepted <= observed
       && (window.expires.Some? ==> accepted < window.expires.value)
  }

  /** Where a runner that holds an ended row takes the job next, by the state the job is in. A failure
      needs its error columns and a success its result. */
  function Toward(row: Run, state: JobState): Option<JobState> {
    var failed := row.errorCode.Some? && row.errorSummary.Some?;
    match (row.status, state)
    case (Some(XSucceeded), Running) => if row.result.Some? then Some(Succeeded) else None
    case (Some(XCanceled), Running) => Some(Canceled)
    case (Some(XFailedRetryable), Queued) => if failed then Some(FailedRetryable) else None
    case (Some(XFailedRetryable), Running) => if failed then Some(FailedRetryable) else None
    case (Some(XFailedFinal), Queued) => if failed then Some(Running) else None
    case (Some(XFailedFinal), Running) => if failed then Some(FailedFinal) else None
    case _ => None
  }

  /** Recovery of a recorded end. The job moves by the table, with the failure and stage of the row, if
      the acceptance of the row is in order; a success, and a final failure found while the job is
      queued, leave more to do. */
  lemma FinalizeDecided(w: World, r: nat, now: Time, intact: bool)
    requires LocalOf(w, r).Finalizing?
    ensures var l, v := LocalOf(w, r), Next(w, Finalize(r, now, intact));
      var row, job := l.row, l.k.job;
      if || row.ext.None?
         || !InAuthority(w.db, job, row.submittedAt, row.ext.value.acceptedAt, row.ext.value.observedAt)
         || Toward(row, w.db.jobs[job].state).None?
      then v == w
      else
        var state := w.db.jobs[job].state;
        var target, again := Toward(row, state).value, row.status == Some(XFailedFinal) && state.Queued?;
        var f := Failure(if row.errorCode.None? then "" else row.errorCode.value,
                         if row.errorSummary.None? then "" else row.errorSummary.value);
        var stage := if again then None else row.stage;
        && JobMoves(w.db, v.db, job, state, target, f, stage, now, intact)
        && GoesOn(w, v, r, if && MoveGranted(w.db, job, state, target, f, target in {FailedRetryable, FailedFinal},
                                             stage, now, intact)
                              && (again || target.Succeeded?)
                           then l else Idle)
  {
    hide MoveJob, JobMoves, MoveGranted, KeyText, SubmitStep, LookupStep, RecordStep, ReportStep, RaiseStep, CancelStep,
      Perform, Apply, Called, ClaimStep;
    var l := LocalOf(w, r);
    if l.k.job in w.db.jobs && Toward(l.row, w.db.jobs[l.k.job].state).Some? {
      var state := w.db.jobs[l.k.job].state;
      var target, again := Toward(l.row, state).value, l.row.status == Some(XFailedFinal) && state.Queued?;
      var f := Failure(if l.row.errorCode.None? then "" else l.row.errorCode.value,
                       if l.row.errorSummary.None? then "" else l.row.errorSummary.value);
      JobMoved(w, r, l.k, state, target, f, if again then None else l.row.stage, now, intact,
               if again || target.Succeeded? then l else Idle);
    }
  }

  // ---- Claims -------------------------------------------------------------------------------------------------------

  /** The job runs this attempt in this state and was not superseded. */
  predicate JobAt(db: Db, k: RunKey, state: JobState) {
    && k.job in db.jobs && db.jobs[k.job].attempt == k.attempt && db.jobs[k.job].state == state
    && !db.jobs[k.job].superseded
  }

  /** No lease, one that has run out, or the claimant's own. */
  predicate Obtainable(r: Run, now: Time, token: string) {
    r.lease.None? || r.lease.value.expires <= now || r.lease.value.token == token
  }

  lemma LeaseTaken(db: Db, k: RunKey, state: JobState, ends: set<External>, now: Time, lease: Lease)
    requires Shaped(db)
    ensures Apply(db, ClaimExisting(k, state, ends, now, lease)) ==
      if || !JobAt(db, k, state) || k !in db.runs || db.runs[k].status.None? || db.runs[k].status.value !in ends
         || !Obtainable(db.runs[k], now, lease.token)
      then (db, No) else (db.(runs := db.runs[k := db.runs[k].(lease := Some(lease))]), Yes)
  {
    hide Shaped, Apply, KeyText, Unowned;
    StatementApplied(db, ClaimExisting(k, state, ends, now, lease));
    if k in db.runs {
      ShapedRow(db, k);
    }
  }

  /** A claim of an existing run is granted exactly if the run ended, or is open, as the purpose asks,
      the job is where the purpose asks, and nobody else holds the row; it takes the lease and no more. */
  lemma ClaimDecided(w: World, r: nat, k: RunKey, purpose: Purpose, now: Time, lease: Lease)
    requires Shaped(w.db) && LocalOf(w, r).Idle?
    requires purpose.ForFinalize? ==> purpose.state in {Queued, Running, Succeeded}
    ensures var v := Next(w, ClaimRun(r, k, purpose, now, lease));
      var state := match purpose case ForPoll => Running case ForRequeue => FailedRetryable
                                 case ForFinalize(s) => s case ForCancel => Canceled;
      var ends := match purpose case ForPoll => {XAccepted, XRunning} case ForRequeue => {XFailedRetryable}
                                case ForFinalize(_) => {XSucceeded, XFailedRetryable, XFailedFinal, XCanceled}
                                case ForCancel => {XAccepted, XRunning};
      if || !JobAt(w.db, k, state) || k !in w.db.runs || w.db.runs[k].status.None?
         || w.db.runs[k].status.value !in ends || !Obtainable(w.db.runs[k], now, lease.token)
      then v == w.(runners := w.runners[r := Idle])
      else
        var row := w.db.runs[k].(lease := Some(lease));
        && OnlyRow(w.db, v.db, k, row) && Uncharged(w.db, v.db)
        && GoesOn(w, v, r, match purpose case ForPoll => Polling(k, lease.token, row)
                                         case ForRequeue => Requeueing(k, lease.token)
                                         case ForFinalize(_) => Finalizing(k, lease.token, row)
                                         case ForCancel => CancelBegun(k, lease.token, row))
  {
    hide Shaped, Apply, KeyText, JobAt, Obtainable;
    var call := ClaimFor(k, purpose, now, lease);
    LeaseTaken(w.db, k, call.state, call.statuses, now, lease);
  }

  /** When a dispatch is granted: the attempt is queued, or runs in the dispatching stage, and its row is
      new, or was submitted and is free. */
  predicate Dispatchable(db: Db, k: RunKey, state: JobState, now: Time, token: string) {
    && state in {Queued, Running} && JobAt(db, k, state)
    && (state.Running? ==> db.jobs[k.job].stage == Some(Dispatching))
    && (if k in db.runs then db.runs[k].submittedAt.Some? && Obtainable(db.runs[k], now, token) else k.attempt > 0)
  }

  function DispatchRow(db: Db, k: RunKey, now: Time, lease: Lease): Run {
    if k in db.runs then db.runs[k].(lease := Some(lease))
    else Run(KeyText(k), Some(EXECUTOR), Some(now), None, None, None, None, None, None, None, None, Some(lease), 0,
             Submission, 0)
  }

  lemma DispatchApplied(db: Db, k: RunKey, state: JobState, now: Time, lease: Lease)
    requires Shaped(db)
    ensures var out := Apply(db, ClaimSubmission(k, state, KeyText(k), EXECUTOR, now, lease));
      if !Dispatchable(db, k, state, now, lease.token) then out.0 == db && !out.1.Yes?
      else
        var d := db.(runs := db.runs[k := DispatchRow(db, k, now, lease)]);
        out == (if state.Queued? then Dispatched(d, k, now) else d, Yes)
  {
    hide Shaped, Apply, KeyText, Unowned, Dispatched;
    if state in {Queued, Running} {
      ClaimApplied(db, k, state, KeyText(k), EXECUTOR, now, lease);
    } else {
      WrongState(db, k, state, KeyText(k), EXECUTOR, now, lease);
    }
    if k in db.runs {
      ShapedRow(db, k);
    } else {
      var row := SubmissionRow(k, KeyText(k), EXECUTOR, now, lease);
      assert db.runs[k := row][k := row] == db.runs[k := row];
    }
  }

  /** A dispatch takes the lease of the row, which a new attempt gets with its key and submission time,
      and a queued job then runs, dispatching, which its log says. */
  lemma DispatchDecided(w: World, r: nat, k: RunKey, state: JobState, now: Time, lease: Lease)
    requires Shaped(w.db) && LocalOf(w, r).Idle?
    ensures var v := Next(w, Claim(r, k, state, now, lease));
      if !Dispatchable(w.db, k, state, now, lease.token) then v == w.(runners := w.runners[r := Idle])
      else
        var row := DispatchRow(w.db, k, now, lease);
        && v.db.runs == w.db.runs[k := row] && Uncharged(w.db, v.db)
        && GoesOn(w, v, r, Launching(k, lease.token, row))
        && var j := w.db.jobs[k.job];
           if state.Running? then v.db.jobs == w.db.jobs && v.db.logs == w.db.logs
           else
             && v.db.jobs == w.db.jobs[k.job := j.(state := Running, stage := Some(Dispatching),
                                                   started := if j.started.None? then Some(now) else j.started)]
             && v.db.logs == w.db.logs[k.job := Log(w.db, k.job) + [Edge(Some(Queued), Running)]]
  {
    hide Shaped, Apply, KeyText, DispatchRow;
    DispatchApplied(w.db, k, state, now, lease);
  }

  /** A canceled dispatch may be looked up exactly while its row is unanswered and free. */
  lemma LookupClaimDecided(w: World, r: nat, k: RunKey, now: Time, lease: Lease)
    requires Shaped(w.db) && LocalOf(w, r).Idle?
    ensures var v := Next(w, ClaimLookup(r, k, now, lease));
      if || !JobAt(w.db, k, Canceled) || w.db.jobs[k.job].stage != Some(Dispatching) || k !in w.db.runs
         || !Unanswered(w.db.runs[k]) || !Obtainable(w.db.runs[k], now, lease.token)
      then v == w.(runners := w.runners[r := Idle])
      else
        var row := w.db.runs[k].(lease := Some(lease));
        && OnlyRow(w.db, v.db, k, row) && Uncharged(w.db, v.db) && GoesOn(w, v, r, LookingUp(k, lease.token, row))
  {
    hide Shaped, Apply, KeyText, Unowned;
    StatementApplied(w.db, ClaimCanceledLookup(k, now, lease));
    if k in w.db.runs {
      ShapedRow(w.db, k);
    }
  }

  // ---- The provider -------------------------------------------------------------------------------------------------

  /** A submission returns the run stored under its key; without one it starts a run of this identity,
      unless no approved window is open or the identity is taken. Tables stay as they are. */
  lemma SubmitDecided(w: World, r: nat, acceptedAt: Time, runId: string)
    requires LocalOf(w, r).Launching?
    ensures var l, v := LocalOf(w, r), Next(w, Submit(r, acceptedAt, runId));
      var key, job := KeyText(l.k), l.k.job;
      v.db == w.db &&
      if key in w.provider then
        GoesOn(w, v, r, Received(l.k, l.token, l.row,
                                 ExternalRun(w.provider[key].runId, key, w.provider[key].acceptedAt), false))
      else if || job !in w.db.jobs || w.db.jobs[job].approval.None?
              || (&& w.db.jobs[job].approval.value.expires.Some?
                  && w.db.jobs[job].approval.value.expires.value <= acceptedAt)
              || !(forall other :: other in w.provider ==> w.provider[other].runId != runId)
      then v == w
      else
        && v.provider == w.provider[key := Entry(runId, acceptedAt, false)]
        && v.runners == w.runners[r := Received(l.k, l.token, l.row, ExternalRun(runId, key, acceptedAt), false)]
  {
    hide KeyText;
  }

  /** A lookup finds what is stored under the key, and starts nothing. */
  lemma LookupDecided(w: World, r: nat)
    requires LocalOf(w, r).Launching? || LocalOf(w, r).LookingUp?
    ensures var l, v := LocalOf(w, r), Next(w, Lookup(r));
      var key := KeyText(l.k);
      if key !in w.provider then v == w
      else
        && v.db == w.db
        && GoesOn(w, v, r, Received(l.k, l.token, l.row,
                                    ExternalRun(w.provider[key].runId, key, w.provider[key].acceptedAt),
                                    l.LookingUp?))
  {
    hide KeyText;
  }

  /** A received run is recorded exactly if it was accepted inside the authority of the job and
      no row has another run under it: the row of its holder is accepted, with a clean slate, and
      free. A run found for a canceled dispatch is recorded only while the job still is one. */
  lemma RecordDecided(w: World, r: nat, now: Time)
    requires Shaped(w.db) && Agreed(w) && LocalOf(w, r).Received?
    ensures var l, v := LocalOf(w, r), Next(w, Record(r, now));
      var k := l.k;
      k in w.db.runs &&
      if !InAuthority(w.db, k.job, w.db.runs[k].submittedAt, l.ext.acceptedAt, now) then v == w
      else if || !Holds(w.db.runs[k], l.token) || w.db.runs[k].ext.Some?
              || (l.canceled && (!JobAt(w.db, k, Canceled) || w.db.jobs[k.job].stage != Some(Dispatching)))
              || Taken(w.db, k, l.ext.runId)
      then v == w.(runners := w.runners[r := Idle])
      else
        && OnlyRow(w.db, v.db, k,
                   w.db.runs[k].(ext := Some(Acceptance(l.ext.runId, l.ext.acceptedAt, now)), status := Some(XAccepted),
                                 nextAt := None, errorCode := None, errorSummary := None,
                                 retryStage := Poll("unknown"), failures := 0, lease := None))
        && Uncharged(w.db, v.db) && GoesOn(w, v, r, Idle)
  {
    hide Shaped, Apply, KeyText, Agreed, Taken, JobAt;
    var l := LocalOf(w, r);
    LocalRemembered(w, r);
    if InAuthority(w.db, l.k.job, w.db.runs[l.k].submittedAt, l.ext.acceptedAt, now) {
      AcceptanceApplied(w.db, l.k, l.token, l.canceled, Acceptance(l.ext.runId, l.ext.acceptedAt, now));
    }
  }

  lemma AcceptanceApplied(db: Db, k: RunKey, token: string, canceled: bool, ext: Acceptance)
    requires
      && Shaped(db) && k in db.runs
      && InAuthority(db, k.job, db.runs[k].submittedAt, ext.acceptedAt, ext.observedAt)
    ensures var key := KeyText(k);
      var out := Apply(db, if canceled then RecordLookupAcceptance(k, token, key, EXECUTOR, ext)
                           else RecordAcceptance(k, token, key, EXECUTOR, ext));
      if || !Holds(db.runs[k], token) || db.runs[k].ext.Some? || Taken(db, k, ext.runId)
         || (canceled && (!JobAt(db, k, Canceled) || db.jobs[k.job].stage != Some(Dispatching)))
      then out.0 == db && !out.1.Yes?
      else
        && OnlyRow(db, out.0, k,
                   db.runs[k].(ext := Some(ext), status := Some(XAccepted), nextAt := None, errorCode := None,
                               errorSummary := None, retryStage := Poll("unknown"), failures := 0, lease := None))
        && Uncharged(db, out.0) && out.1.Yes?
  {
    hide Shaped, Apply, KeyText, Unowned, Taken;
    ShapedRow(db, k);
    StatementApplied(db, if canceled then RecordLookupAcceptance(k, token, KeyText(k), EXECUTOR, ext)
                         else RecordAcceptance(k, token, KeyText(k), EXECUTOR, ext));
    OwnedByOther(db, k, ext.runId);
  }

  /** Another row accepted this run. */
  ghost predicate Taken(db: Db, k: RunKey, runId: string) {
    exists j :: j in db.runs && j != k && db.runs[j].ext.Some? && db.runs[j].ext.value.runId == runId
  }

  lemma OwnedByOther(db: Db, k: RunKey, runId: string)
    requires Shaped(db)
    ensures Unowned(db.runs, k, Some(EXECUTOR), runId)
       <==> !Taken(db, k, runId)
  {
    forall j | j in db.runs && db.runs[j].ext.Some? ensures db.runs[j].executor == Some(EXECUTOR) {
      ShapedRow(db, j);
    }
  }

  /** A cancellation marks the run of the row at the provider, once it is the run the row accepted. */
  lemma CancelDecided(w: World, r: nat)
    requires LocalOf(w, r).CancelBegun?
    ensures var l, v := LocalOf(w, r), Next(w, CancelRun(r));
      var key := l.row.key;
      if || key !in w.provider || l.row.ext.None? || w.provider[key].runId != l.row.ext.value.runId
         || w.provider[key].acceptedAt != l.row.ext.value.acceptedAt
      then v == w
      else
        && v.db == w.db && v.provider == w.provider[key := Entry(w.provider[key].runId, w.provider[key].acceptedAt,
                                                                 true)]
        && v.runners == w.runners[r := CancelConfirmed(l.k, l.token)]
  {
  }

  /** A confirmed cancellation ends the row of its holder as canceled, at the time it was first known to
      end, unless the run ended in another way before. */
  lemma CanceledDecided(w: World, r: nat, now: Time)
    requires Shaped(w.db) && LocalOf(w, r).CancelConfirmed?
    ensures var l, v := LocalOf(w, r), Next(w, RecordCanceled(r, now));
      var k := l.k;
      if || !Held(w.db, k, l.token) || w.db.runs[k].ext.None?
         || w.db.runs[k].status in {Some(XSucceeded), Some(XFailedRetryable), Some(XFailedFinal)}
      then v == w.(runners := w.runners[r := Idle])
      else
        var row := w.db.runs[k];
        && OnlyRow(w.db, v.db, k, row.(status := Some(XCanceled), nextAt := None,
                                       completedAt := if row.completedAt.None? then Some(now) else row.completedAt,
                                       lease := None))
        && Uncharged(w.db, v.db) && GoesOn(w, v, r, Idle)
  {
    hide Shaped, Apply, KeyText, Unowned;
    var l := LocalOf(w, r);
    StatementApplied(w.db, RecordRemoteCanceled(l.k, l.token, now));
    if l.k in w.db.runs {
      ShapedRow(w.db, l.k);
    }
  }

  // ---- Everybody else -----------------------------------------------------------------------------------------------

  /** What the worker API and the artifact step may do: plan, approve and bind, and four moves of a job. */
  lemma ServiceDecided(w: World, op: DbOp)
    ensures Next(w, Service(op)) ==
      if || op.OpPlan? || op.OpApprove? || op.OpBindManifest?
         || (op.OpTransition? && (op.expected, op.target) in {
               (Planned, AwaitingPaidApproval), (Queued, Canceled), (Running, Canceled), (FailedRetryable, Queued)})
      then w.(db := Perform(w.db, op).0) else w
  {
    hide Perform;
  }

  /** The calls that only a runner in their place makes; every other one may come from anywhere. */
  lemma HousekeepDecided(w: World, call: Call)
    ensures Next(w, Housekeep(call)) ==
      if || call.ClaimSubmission? || call.ClaimExisting? || call.ClaimCanceledLookup? || call.RecordAcceptance?
         || call.RecordLookupAcceptance? || call.RecordSubmitFailure? || call.RecordPollFailure?
         || call.RecordPollStatus? || call.MarkRetryConsumed? || call.RecordCancelFailure? || call.RecordRemoteCanceled?
      then w else w.(db := Apply(w.db, call).0)
  {
    hide Apply;
  }

  /** A crash forgets what the runner held, and nothing else. */
  lemma CrashDecided(w: World, r: nat)
    ensures Next(w, Crash(r)) == w.(runners := w.runners[r := Idle])
  {
  }
}
