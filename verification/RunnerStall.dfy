/**
 Why the retry accounts need the guard of `RunnerAccounts`: `transition` compares the state of the
 job but not the attempt. One runner records a retryable failure and stalls, another applies it, the
 job is requeued and dispatched again, and the first runner then moves the new attempt with the
 outcome of the old one. The run below starts from nothing and uses up two attempts on one charge.
 */
module RunnerStall {
  import opened Texts
  import opened RunnerTables
  import opened JobService
  import opened RunnerBudgets
  import opened RunnerProtocol
  import opened RunnerAccounts
  import opened RunnerRows
  import opened RunnerSteps

  const JOB := JobKey("acme", "job-1")
  const FIRST := RunKey(JOB, 1)
  const SECOND := RunKey(JOB, 2)
  const FAILURE := Failure("busy", "provider is busy")
  const NOTHING := Failure("", "")
  const REPORT := Report(true, true, "render", FAILURE)
  const WINDOW := Window("approval-1", 0, None)

  const PLAN: Step := Service(OpPlan(JOB, "user", 3))
  const AWAIT: Step := Service(OpTransition(JOB, Planned, AwaitingPaidApproval, NOTHING, false, None, 0, true))
  const APPROVE: Step := Service(OpApprove(JOB, WINDOW, true))
  const CLAIM: Step := Claim(0, FIRST, Queued, 1, Lease("t1", 10))
  const SUBMIT: Step := Submit(0, 2, "run-1")
  const RECORD: Step := Record(0, 3)
  const CLAIM_POLL: Step := ClaimRun(0, FIRST, ForPoll, 4, Lease("t2", 20))
  const FAIL: Step := PollReports(0, REPORT)
  const CHARGE: Step := RecordReport(0, None, 9, 5)
  const CLAIM_END: Step := ClaimRun(1, FIRST, ForFinalize(Running), 6, Lease("t3", 30))
  const FINALIZE: Step := Finalize(1, 7, true)
  const REQUEUE: Step := Service(OpTransition(JOB, FailedRetryable, Queued, NOTHING, false, None, 8, true))
  const CLAIM_AGAIN: Step := Claim(1, SECOND, Queued, 9, Lease("t4", 40))
  const MISAPPLY: Step := ApplyOutcome(0, 10, true)
  const REQUEUE_AGAIN: Step := Service(OpTransition(JOB, FailedRetryable, Queued, NOTHING, false, None, 11, true))

  const STALL: seq<Step> :=
    [PLAN, AWAIT, APPROVE, CLAIM, SUBMIT, RECORD, CLAIM_POLL, FAIL, CHARGE, CLAIM_END, FINALIZE, REQUEUE,
     CLAIM_AGAIN, MISAPPLY,
     REQUEUE_AGAIN]

  // ---- What the tables hold on the way ------------------------------------------------------------------------------

  const PLANNED := NewJob("user", 3)
  const AWAITING := PLANNED.(state := AwaitingPaidApproval)
  const QUEUED := AWAITING.(state := Queued, approval := Some(WINDOW))
  const RUNNING := QUEUED.(state := Running, stage := Some(Dispatching), started := Some(1))
  const FAILED := RUNNING.(state := FailedRetryable, errorCode := Some(FAILURE.code),
                           errorSummary := Some(FAILURE.summary))

  const CLAIMED := EmptyRun(FIRST).(executor := Some(EXECUTOR), submittedAt := Some(1), lease := Some(Lease("t1", 10)))
  const ACCEPTED := Accept(CLAIMED, EXECUTOR, Acceptance("run-1", 2, 3))
  const POLLED := ACCEPTED.(lease := Some(Lease("t2", 20)))
  const REPORTED := ACCEPTED.(status := Some(XFailedRetryable), stage := None, nextAt := Some(9), completedAt := None,
                              errorCode := Some(FAILURE.code), errorSummary := Some(FAILURE.summary),
                              retryStage := Poll("render"), failures := 1, lease := None)
  const HELD := REPORTED.(lease := Some(Lease("t3", 30)))
  const AGAIN := EmptyRun(SECOND).(executor := Some(EXECUTOR), submittedAt := Some(9), lease := Some(Lease("t4", 40)))

  const PENDING := Polled(FIRST, FailedRetryable, FAILURE, None)

  /** The job has this attempt and otherwise these columns. */
  function AtAttempt(n: int, j: Job): Job {
    j.(attempt := n)
  }

  /** One job, these rows, and so many charges to its poll stage. */
  predicate Holding(db: Db, j: Job, runs: map<RunKey, Run>, charges: nat) {
    && db.jobs == map[JOB := j] && db.runs == runs
    && db.budgets == if charges == 0 then map[] else map[(JOB, Poll("render")) := charges]
  }

  predicate Shows(w: World, j: Job, runs: map<RunKey, Run>, charges: nat, first: Local, second: Local) {
    && Holding(w.db, j, runs, charges)
    && w.runners.Keys <= {0, 1} && LocalOf(w, 0) == first && LocalOf(w, 1) == second
  }

  lemma Planning(w: World)
    requires w == START
    ensures Shows(Next(w, PLAN), PLANNED, map[], 0, Idle, Idle) && Next(w, PLAN).provider == map[]
  {
  }

  lemma Awaiting(w: World)
    requires Shows(w, PLANNED, map[], 0, Idle, Idle)
    ensures Shows(Next(w, AWAIT), AWAITING, map[], 0, Idle, Idle) && Next(w, AWAIT).provider == w.provider
  {
  }

  lemma Approving(w: World)
    requires Shows(w, AWAITING, map[], 0, Idle, Idle)
    ensures Shows(Next(w, APPROVE), QUEUED, map[], 0, Idle, Idle) && Next(w, APPROVE).provider == w.provider
  {
  }

  lemma Claiming(w: World)
    requires Shows(w, QUEUED, map[], 0, Idle, Idle) && Shaped(w.db)
    ensures Guarded(w, CLAIM)
    ensures Shows(Next(w, CLAIM), RUNNING, map[FIRST := CLAIMED], 0, Launching(FIRST, "t1", CLAIMED), Idle)
    ensures Next(w, CLAIM).provider == w.provider
  {
    hide KeyText, Next, Shaped;
    DispatchDecided(w, 0, FIRST, Queued, 1, Lease("t1", 10));
  }

  const STARTED := ExternalRun("run-1", KeyText(FIRST), 2)

  lemma Submitting(w: World)
    requires Shows(w, RUNNING, map[FIRST := CLAIMED], 0, Launching(FIRST, "t1", CLAIMED), Idle) && w.provider == map[]
    ensures Shows(Next(w, SUBMIT), RUNNING, map[FIRST := CLAIMED], 0,
                  Received(FIRST, "t1", CLAIMED, STARTED, false), Idle)
  {
    hide KeyText;
  }

  lemma Recording(w: World)
    requires Shows(w, RUNNING, map[FIRST := CLAIMED], 0, Received(FIRST, "t1", CLAIMED, STARTED, false), Idle)
    ensures Shows(Next(w, RECORD), RUNNING, map[FIRST := ACCEPTED], 0, Idle, Idle)
  {
    hide KeyText;
  }

  lemma ClaimingPoll(w: World)
    requires Shows(w, RUNNING, map[FIRST := ACCEPTED], 0, Idle, Idle) && Shaped(w.db)
    ensures Guarded(w, CLAIM_POLL)
    ensures Shows(Next(w, CLAIM_POLL), RUNNING, map[FIRST := POLLED], 0, Polling(FIRST, "t2", POLLED), Idle)
  {
    hide KeyText, Next, Shaped;
    ClaimDecided(w, 0, FIRST, ForPoll, 4, Lease("t2", 20));
  }

  lemma Reporting(w: World)
    requires Shows(w, RUNNING, map[FIRST := POLLED], 0, Polling(FIRST, "t2", POLLED), Idle)
    ensures Shows(Next(w, FAIL), RUNNING, map[FIRST := POLLED], 0, PollCounted(FIRST, "t2", REPORT, 0), Idle)
  {
    hide KeyText;
  }

  /** The failure is charged; the first runner stalls before it moves the job. */
  lemma Charging(w: World)
    requires Shows(w, RUNNING, map[FIRST := POLLED], 0, PollCounted(FIRST, "t2", REPORT, 0), Idle) && Shaped(w.db)
    ensures Shows(Next(w, CHARGE), RUNNING, map[FIRST := REPORTED], 1, PENDING, Idle)
  {
    hide KeyText, Next, Shaped;
    ReportDecided(w, 0, None, 9, 5);
  }

  lemma ClaimingEnd(w: World)
    requires Shows(w, RUNNING, map[FIRST := REPORTED], 1, PENDING, Idle) && Shaped(w.db)
    ensures Guarded(w, CLAIM_END)
    ensures Shows(Next(w, CLAIM_END), RUNNING, map[FIRST := HELD], 1, PENDING, Finalizing(FIRST, "t3", HELD))
  {
    hide KeyText, Next, Shaped;
    ClaimDecided(w, 1, FIRST, ForFinalize(Running), 6, Lease("t3", 30));
  }

  /** A job that may move. */
  lemma MoveEffect(w: World, r: nat, k: RunKey, s: JobState, t: JobState, f: Failure, stage: Option<Stage>, now: Time,
                   intact: bool, next: Local)
    requires k.job in w.db.jobs && w.db.jobs[k.job].state == s && Active(s) && !s.Canceled?
    requires MayMove(w.db.jobs[k.job], t, f, t.FailedRetryable? || t.FailedFinal?, stage, now, intact)
    ensures var v := MoveJob(w, r, k, s, t, f, stage, now, intact, next);
      && v.db.runs == w.db.runs && v.db.budgets == w.db.budgets && v.runners == w.runners[r := next]
         && v.provider == w.provider
      && v.db.jobs == w.db.jobs[k.job := Moved(w.db.jobs[k.job], t, f, t.FailedRetryable? || t.FailedFinal?, stage,
                                               now)]
  {
    hide MayMove, Moved, Log, CreatorBusy;
  }

  lemma MayFail(n: int, now: Time)
    ensures MayMove(AtAttempt(n, RUNNING), FailedRetryable, FAILURE, true, None, now, true)
    ensures Moved(AtAttempt(n, RUNNING), FailedRetryable, FAILURE, true, None, now) == AtAttempt(n, FAILED)
  {
  }

  lemma Finalized(w: World)
    requires Shows(w, RUNNING, map[FIRST := HELD], 1, PENDING, Finalizing(FIRST, "t3", HELD))
    ensures Guarded(w, FINALIZE)
    ensures Shows(Next(w, FINALIZE), FAILED, map[FIRST := HELD], 1, PENDING, Idle)
  {
    hide KeyText, MoveJob, MayMove, Moved, Strip, SubmitStep, LookupStep, RecordStep, ReportStep, RaiseStep, CancelStep,
      Perform, Apply;
    MayFail(1, 7);
    assert AtAttempt(1, RUNNING) == RUNNING && AtAttempt(1, FAILED) == FAILED;
    MoveEffect(w, 1, FIRST, Running, FailedRetryable, FAILURE, None, 7, true, Idle);
  }

  const REQUEUED := AtAttempt(2, RUNNING).(state := Queued)

  lemma Requeuing(w: World)
    requires Shows(w, FAILED, map[FIRST := HELD], 1, PENDING, Idle)
    ensures Shows(Next(w, REQUEUE), REQUEUED, map[FIRST := HELD], 1, PENDING, Idle)
  {
    hide KeyText;
  }

  lemma ClaimingAgain(w: World)
    requires Shows(w, REQUEUED, map[FIRST := HELD], 1, PENDING, Idle) && Shaped(w.db)
    ensures Guarded(w, CLAIM_AGAIN)
    ensures Shows(Next(w, CLAIM_AGAIN), AtAttempt(2, RUNNING), map[FIRST := HELD, SECOND := AGAIN], 1, PENDING,
                  Launching(SECOND, "t4", AGAIN))
  {
    hide KeyText, Next, Shaped;
    DispatchDecided(w, 1, SECOND, Queued, 9, Lease("t4", 40));
  }

  /** The first runner wakes up and fails the second attempt with the outcome of the first. */
  lemma Misapplying(w: World)
    requires Shows(w, AtAttempt(2, RUNNING), map[FIRST := HELD, SECOND := AGAIN], 1, PENDING,
                   Launching(SECOND, "t4", AGAIN))
    ensures Shows(Next(w, MISAPPLY), AtAttempt(2, FAILED), map[FIRST := HELD, SECOND := AGAIN], 1, Idle,
                  Launching(SECOND, "t4", AGAIN))
    ensures !Guarded(w, MISAPPLY)
  {
    hide KeyText, MoveJob, MayMove, Moved, Strip;
    MayFail(2, 10);
    MoveEffect(w, 0, FIRST, Running, FailedRetryable, FAILURE, None, 10, true, Idle);
  }

  lemma RequeuingAgain(w: World)
    requires Shows(w, AtAttempt(2, FAILED), map[FIRST := HELD, SECOND := AGAIN], 1, Idle,
                   Launching(SECOND, "t4", AGAIN))
    ensures Next(w, REQUEUE_AGAIN).db.jobs == map[JOB := AtAttempt(3, RUNNING).(state := Queued)]
    ensures Next(w, REQUEUE_AGAIN).db.budgets == w.db.budgets
  {
    hide KeyText;
  }

  // ---- The run ------------------------------------------------------------------------------------------------------

  ghost function After(n: nat): World
    requires n <= |STALL|
  {
    RunAll(START, STALL[..n])
  }

  lemma Advance(n: nat)
    requires n < |STALL|
    ensures After(n + 1) == Next(After(n), STALL[n]) && Shaped(After(n).db)
    ensures AllGuarded(STALL[..n]) && Guarded(After(n), STALL[n]) ==> AllGuarded(STALL[..n + 1])
  {
    hide Next, Guarded, Shaped;
    RunsShaped(STALL[..n]);
    assert STALL[..n + 1][..n] == STALL[..n];
  }

  lemma Unclaimed(w: World, s: Step)
    requires s.Service? || s.Submit? || s.Record? || s.PollReports? || s.RecordReport?
    ensures Guarded(w, s)
  {
  }

  /** From nothing to a claimed poll. */
  lemma PollClaimed()
    ensures AllGuarded(STALL[..7])
    ensures Shows(After(7), RUNNING, map[FIRST := POLLED], 0, Polling(FIRST, "t2", POLLED), Idle)
  {
    hide Next, Shows, Guarded, After, AllGuarded, Shaped;
    Begin();
    Advance(0); Unclaimed(After(0), PLAN); Planning(After(0));
    Advance(1); Unclaimed(After(1), AWAIT); Awaiting(After(1));
    Advance(2); Unclaimed(After(2), APPROVE); Approving(After(2));
    Advance(3); Claiming(After(3));
    Advance(4); Unclaimed(After(4), SUBMIT); Submitting(After(4));
    Advance(5); Unclaimed(After(5), RECORD); Recording(After(5));
    Advance(6); ClaimingPoll(After(6));
  }

  /** To the charged failure that the first runner has not applied yet. */
  lemma Stalling()
    ensures AllGuarded(STALL[..9]) && Shows(After(9), RUNNING, map[FIRST := REPORTED], 1, PENDING, Idle)
  {
    hide Next, Shows, Guarded, After, AllGuarded, Shaped;
    PollClaimed();
    Advance(7); Unclaimed(After(7), FAIL); Reporting(After(7));
    Advance(8); Unclaimed(After(8), CHARGE); Charging(After(8));
  }

  lemma Begin()
    ensures After(0) == START && AllGuarded(STALL[..0])
  {
  }

  /** The second runner takes the job to its next attempt, and the first one fails it. */
  lemma Overtaking()
    ensures AllGuarded(STALL[..13]) && !Guarded(After(13), MISAPPLY)
    ensures Next(After(14), REQUEUE_AGAIN) == After(15)
    ensures Shows(After(14), AtAttempt(2, FAILED), map[FIRST := HELD, SECOND := AGAIN], 1, Idle,
                  Launching(SECOND, "t4", AGAIN))
  {
    hide Next, Shows, Guarded, After, AllGuarded, Shaped;
    Stalling();
    Advance(9); ClaimingEnd(After(9));
    Advance(10); Finalized(After(10));
    Advance(11); Unclaimed(After(11), REQUEUE); Requeuing(After(11));
    Advance(12); ClaimingAgain(After(12));
    Advance(13); Misapplying(After(13));
    Advance(14);
  }

  /** Two attempts used up and one charged: with two runners the accounts fail, although every step
      before the misapplied outcome met the guard. */
  lemma StalledRunnerOverspends()
    ensures AllGuarded(STALL[..13]) && !Guarded(RunAll(START, STALL[..13]), STALL[13])
    ensures var db := RunAll(START, STALL).db;
      && JOB in db.jobs && db.jobs[JOB].attempt - 1 == 2 && PollTotal(db, JOB) == 1
      && forall s :: !InBudget(db, JOB, s)
  {
    hide Next, Guarded, AllGuarded;
    Overtaking();
    RequeuingAgain(After(14));
    assert STALL[..15] == STALL;
    var db := RunAll(START, STALL).db;
    var none := Db(map[], map[], map[], map[]);
    assert PollKeys(none, JOB) == {};
    ChargeAdds(none, JOB, Poll("render"), JOB);
    TotalOf(Charged(none, JOB, Poll("render")), db, JOB);
  }
}
