/**
 What the rows and jobs of every reachable state look like, for any number of runners: every step is
 at most one operation on the tables, and the operations keep these shapes.
 */
module RunnerRows {
  import opened Texts
  import opened RunnerTables
  import opened RunnerFencing
  import opened JobService
  import opened RunnerProtocol

  /** A status comes after an acceptance, a result comes with the end of the external run, and every
      row that was submitted was submitted to this executor. */
  predicate Tidy(r: Run) {
    && (r.status.Some? ==> r.ext.Some?)
    && (r.result.Some? ==> r.status.Some? && !Open(r))
    && (r.executor.Some? ==> r.executor == Some(EXECUTOR))
  }

  /** An unfinished job has neither an end nor a manifest; a job past approval has its approval and was
      not superseded. */
  predicate Unfinished(j: Job) {
    && (!Finished(j.state) && !j.state.AwaitingExportApproval? ==> j.finished.None? && j.artifact.None?)
    && (!Pending(j.state) ==> j.approval.Some? && !j.superseded)
  }

  ghost predicate Shaped(db: Db) {
    && (forall k :: k in db.runs ==> Tidy(db.runs[k]) && RowOk(k, db.runs[k]))
    && (forall j :: j in db.jobs ==> Unfinished(db.jobs[j]))
  }

  /** Calls as the runner makes them: for its own executor, and with a result only for a success. */
  predicate Proper(op: DbOp) {
    op.OpCall? ==>
      && (op.call.ClaimSubmission? || op.call.RecordAcceptance? || op.call.RecordLookupAcceptance? ==>
            op.call.executor == EXECUTOR)
      && (op.call.RecordPollStatus? && op.call.result.Some? ==> op.call.status.XSucceeded?)
  }

  // ---- One operation a step -----------------------------------------------------------------------------------------

  lemma CallIsOp(w: World, r: nat, call: Call, next: Local)
    ensures Called(w, r, call, next).db == Perform(w.db, OpCall(call)).0
  {
  }

  lemma MoveIsOp(w: World, r: nat, k: RunKey, s: JobState, t: JobState, f: Failure, stage: Option<Stage>, now: Time,
                 intact: bool, next: Local)
    ensures MoveJob(w, r, k, s, t, f, stage, now, intact, next).db
         == Perform(w.db, OpTransition(k.job, s, t, f, t.FailedRetryable? || t.FailedFinal?, stage, now, intact)).0
  {
    hide Transition;
  }

  /** Every step changes the tables by one proper operation, or not at all. */
  ghost predicate OneOp(w: World, v: World) {
    v.db == w.db || exists op :: Proper(op) && v.db == Perform(w.db, op).0
  }

  lemma CalledOne(w: World, r: nat, call: Call, next: Local)
    requires Proper(OpCall(call))
    ensures OneOp(w, Called(w, r, call, next))
  {
    hide Called, Perform, Proper;
    CallIsOp(w, r, call, next);
  }

  lemma MoveOne(w: World, r: nat, k: RunKey, s: JobState, t: JobState, f: Failure, stage: Option<Stage>, now: Time,
                intact: bool, next: Local)
    ensures OneOp(w, MoveJob(w, r, k, s, t, f, stage, now, intact, next))
  {
    hide MoveJob, Perform;
    MoveIsOp(w, r, k, s, t, f, stage, now, intact, next);
    assert Proper(OpTransition(k.job, s, t, f, t.FailedRetryable? || t.FailedFinal?, stage, now, intact));
  }

  lemma ClaimOne(w: World, r: nat, call: Call, next: Run -> Local)
    requires Proper(OpCall(call))
    ensures OneOp(w, ClaimStep(w, r, call, next))
  {
    hide Apply, Proper;
    assert Perform(w.db, OpCall(call)).0 == ClaimStep(w, r, call, next).db;
  }

  lemma StepIsOneOp(w: World, s: Step)
    ensures OneOp(w, Next(w, s))
  {
    hide OneOp, Called, MoveJob, ClaimStep, LocalOf, MaxRetries, Budget, Apply, Perform, KeyText, ProvenanceOk,
      PaidWindow;
    SameOne(w);
    match s
    case Service(op) => if ServiceOp(op) { ServiceOne(w, op); }
    case Housekeep(call) => if Housekeeping(call) { HousekeepOne(w, call); }
    case Claim(r, k, state, now, lease) =>
      ClaimOne(w, r, ClaimSubmission(k, state, KeyText(k), EXECUTOR, now, lease),
               row => Launching(k, lease.token, row));
    case ClaimLookup(r, k, now, lease) =>
      ClaimOne(w, r, ClaimCanceledLookup(k, now, lease), row => LookingUp(k, lease.token, row));
    case ClaimRun(r, k, purpose, now, lease) =>
      ClaimOne(w, r, ClaimFor(k, purpose, now, lease), row => HeldFor(k, purpose, lease.token, row));
    case _ => RunnerOne(w, s);
  }

  lemma SameOne(w: World)
    ensures forall v: World :: v.db == w.db ==> OneOp(w, v)
  {
  }

  lemma ServiceOne(w: World, op: DbOp)
    requires ServiceOp(op)
    ensures OneOp(w, w.(db := Perform(w.db, op).0))
  {
    hide Perform;
    assert Proper(op);
  }

  lemma HousekeepOne(w: World, call: Call)
    requires Housekeeping(call)
    ensures OneOp(w, w.(db := Apply(w.db, call).0))
  {
    hide Apply;
    assert Proper(OpCall(call)) && Perform(w.db, OpCall(call)).0 == Apply(w.db, call).0;
  }

  /** Calls of the provider change no table. */
  lemma RemoteOne(w: World, r: nat, l: Local)
    ensures l.Launching? ==> forall at: Time, id: string :: SubmitStep(w, r, l, at, id).db == w.db
    ensures l.Launching? || l.LookingUp? ==> LookupStep(w, r, l).db == w.db
    ensures l.CancelBegun? ==> CancelStep(w, r, l).db == w.db
  {
    hide KeyText, PaidWindow;
  }

  lemma RecordOne(w: World, r: nat, l: Local, now: Time)
    requires l.Received?
    ensures OneOp(w, RecordStep(w, r, l, now))
  {
    hide OneOp, Called, KeyText, ProvenanceOk, PaidWindow;
    SameOne(w);
    var ext := Acceptance(l.ext.runId, l.ext.acceptedAt, now);
    CalledOne(w, r, RecordLookupAcceptance(l.k, l.token, l.ext.key, EXECUTOR, ext), Idle);
    CalledOne(w, r, RecordAcceptance(l.k, l.token, l.ext.key, EXECUTOR, ext), Idle);
  }

  lemma ReportOne(w: World, r: nat, l: Local, stage: Option<Stage>, nextAt: Time, now: Time)
    requires l.PollCounted?
    ensures OneOp(w, ReportStep(w, r, l, stage, nextAt, now))
  {
    hide OneOp, Called, MaxRetries;
    forall call: Call, next | Proper(OpCall(call)) ensures OneOp(w, Called(w, r, call, next)) {
      CalledOne(w, r, call, next);
    }
  }

  lemma RaiseOne(w: World, r: nat, l: Local, transient: bool, f: Failure, nextAt: Time, now: Time)
    requires l.PollRefused?
    ensures OneOp(w, RaiseStep(w, r, l, transient, f, nextAt, now))
  {
    hide OneOp, Called, MaxRetries;
    SameOne(w);
    forall call: Call, next | Proper(OpCall(call)) ensures OneOp(w, Called(w, r, call, next)) {
      CalledOne(w, r, call, next);
    }
  }

  lemma FinalizeOne(w: World, r: nat, l: Local, now: Time, intact: bool)
    requires l.Finalizing?
    ensures OneOp(w, FinalizeStep(w, r, l, now, intact))
  {
    hide OneOp, MoveJob, ProvenanceOk, PaidWindow;
    SameOne(w);
    forall k, a, b, f, stage, next ensures OneOp(w, MoveJob(w, r, k, a, b, f, stage, now, intact, next)) {
      MoveOne(w, r, k, a, b, f, stage, now, intact, next);
    }
  }

  /** The runner's own steps: each call it can make is proper. */
  lemma RunnerOne(w: World, s: Step)
    requires !s.Service? && !s.Housekeep? && !s.Claim? && !s.ClaimLookup? && !s.ClaimRun?
    ensures OneOp(w, Next(w, s))
  {
    hide OneOp, Called, MoveJob, ClaimStep, LocalOf, MaxRetries, Budget, Apply, Perform, KeyText, ServiceOp,
      Housekeeping, ClaimFor, HeldFor, SubmitStep, LookupStep, RecordStep, ReportStep, RaiseStep, FinalizeStep,
      CancelStep;
    SameOne(w);
    var r, l := s.r, LocalOf(w, s.r);
    RemoteOne(w, r, l);
    match s
    case Record(_, now) => if l.Received? { RecordOne(w, r, l, now); }
    case RecordReport(_, stage, nextAt, now) => if l.PollCounted? { ReportOne(w, r, l, stage, nextAt, now); }
    case RecordRaise(_, transient, failure, nextAt, now) =>
      if l.PollRefused? {
        RaiseOne(w, r, l, transient, failure, nextAt, now);
      }
    case Finalize(_, now, intact) => if l.Finalizing? { FinalizeOne(w, r, l, now, intact); }
    case RecordSubmitFails(_, nextAt, f) =>
      if l.SubmitCounted? {
        CalledOne(w, r, RecordSubmitFailure(l.k, l.token, Some(nextAt), f), Idle);
      }
    case ApplyOutcome(_, now, intact) =>
      if l.Polled? {
        MoveOne(w, r, l.k, Running, l.target, l.failure, l.stage, now, intact, Idle);
      }
    case Retry(_, now, intact) => if l.Requeueing? {
      MoveOne(w, r, l.k, FailedRetryable, Queued, Failure("", "job retry requested through Worker API"), None, now,
              intact, Requeued(l.k, l.token)); }
    case Consume(_) => if l.Requeued? { CalledOne(w, r, MarkRetryConsumed(l.k, l.token), Idle); }
    case RecordCancelFails(_, retryAt, f) =>
      if l.CancelCounted? {
        CalledOne(w, r, RecordCancelFailure(l.k, l.token, retryAt, f), Idle);
      }
    case RecordCanceled(_, now) =>
      if l.CancelConfirmed? {
        CalledOne(w, r, RecordRemoteCanceled(l.k, l.token, now), Idle);
      }
    case _ => if l.Polling? { PollOne(w, s); }
  }

  lemma PollOne(w: World, s: Step)
    requires !s.Service? && !s.Housekeep? && !s.Claim? && !s.ClaimLookup? && !s.ClaimRun? && LocalOf(w, s.r).Polling?
    ensures OneOp(w, Next(w, s))
  {
    hide OneOp, Called, MoveJob, ClaimStep, LocalOf, MaxRetries, Budget, Apply, Perform, KeyText, ServiceOp,
      Housekeeping, ClaimFor, HeldFor, SubmitStep, LookupStep, RecordStep, ReportStep, RaiseStep, FinalizeStep,
      CancelStep;
    SameOne(w);
    var r, l := s.r, LocalOf(w, s.r);
    match s
    case PollLive(_, status, stage, retryStage, nextAt, note) =>
      if !Terminal(status) {
        CalledOne(w, r, RecordPollStatus(l.k, l.token, status, stage, Poll(retryStage), false, Some(nextAt), None,
                                         note, None), Idle);
      }
    case PollSucceeds(_, stage, retryStage, now, result) =>
      CalledOne(w, r, RecordPollStatus(l.k, l.token, XSucceeded, stage, Poll(retryStage), false, None, Some(now),
                                       None, Some(result)),
                Polled(l.k, Succeeded, Failure("", "external execution succeeded"), stage));
    case PollCanceled(_, stage, retryStage, now) =>
      CalledOne(w, r, RecordPollStatus(l.k, l.token, XCanceled, stage, Poll(retryStage), false, None, Some(now),
                                       None, None),
                Polled(l.k, Canceled, Failure("", "external execution canceled"), stage));
    case _ =>
  }

  // ---- Operations keep the shapes -----------------------------------------------------------------------------------

  lemma CallKeepsTidy(db: Db, call: Call)
    requires Proper(OpCall(call)) && forall k :: k in db.runs ==> Tidy(db.runs[k])
    ensures forall k :: k in Apply(db, call).0.runs ==> Tidy(Apply(db, call).0.runs[k])
  {
    hide Apply, UpdateOk, RowOk, Tidy, Matches, After, Inserts;
    var d := Apply(db, call).0;
    forall k | k in d.runs ensures Tidy(d.runs[k]) {
      if k in db.runs {
        RowAfter(db, call, k);
        if d.runs[k] != db.runs[k] {
          TidyAfter(db, call, db.runs[k]);
        }
      } else {
        RowInserted(db, call, k);
        var r := Inserts(db, call).value;
        TidyInsert(db, call);
        if d.runs[k] != r {
          TidyAfter(db.(runs := db.runs[k := r]), call, r);
        }
      }
    }
  }

  lemma TidyAfter(db: Db, call: Call, r: Run)
    requires Proper(OpCall(call)) && Tidy(r) && Matches(db, call, r)
    ensures Tidy(After(call, r))
  {
    hide JobIs, JobActive, SubmissionJob, CanceledDispatch;
  }

  lemma TidyInsert(db: Db, call: Call)
    requires Proper(OpCall(call)) && Inserts(db, call).Some?
    ensures Tidy(Inserts(db, call).value)
  {
  }

  lemma CallKeepsUnfinished(db: Db, call: Call, j: JobKey)
    requires (j in db.jobs ==> Unfinished(db.jobs[j])) && j in Apply(db, call).0.jobs
    ensures Unfinished(Apply(db, call).0.jobs[j])
  {
    hide Apply;
    CallOnJobs(db, call);
  }

  lemma OpKeepsUnfinished(db: Db, op: DbOp, j: JobKey)
    requires !op.OpCall? && (j in db.jobs ==> Unfinished(db.jobs[j])) && j in Perform(db, op).0.jobs
    ensures Unfinished(Perform(db, op).0.jobs[j])
  {
    hide CreatorBusy, Strip, Blank, WindowOpen;
  }

  lemma PerformKeepsShapes(db: Db, op: DbOp)
    requires Shaped(db) && Proper(op)
    ensures Shaped(Perform(db, op).0)
  {
    hide Tidy, Unfinished, Apply, RowOk;
    var d := Perform(db, op).0;
    if op.OpCall? {
      CallKeepsTidy(db, op.call);
      CallKeepsRows(db, op.call);
      forall j | j in d.jobs ensures Unfinished(d.jobs[j]) {
        CallKeepsUnfinished(db, op.call, j);
      }
    } else {
      hide Perform;
      ServiceKeepsRuns(db, op);
      forall j | j in d.jobs ensures Unfinished(d.jobs[j]) {
        OpKeepsUnfinished(db, op, j);
      }
    }
  }

  lemma {:induction false} RunsShaped(steps: seq<Step>)
    ensures Shaped(RunAll(START, steps).db)
    decreases |steps|
  {
    hide Next, Shaped, Perform, Proper;
    if steps == [] {
      StartShaped();
    } else {
      var w := RunAll(START, steps[..|steps| - 1]);
      RunsShaped(steps[..|steps| - 1]);
      StepIsOneOp(w, steps[|steps| - 1]);
      var v := Next(w, steps[|steps| - 1]);
      if v.db != w.db {
        var op :| Proper(op) && v.db == Perform(w.db, op).0;
        PerformKeepsShapes(w.db, op);
      }
    }
  }

  lemma StartShaped()
    ensures Shaped(START.db)
  {
  }
}
