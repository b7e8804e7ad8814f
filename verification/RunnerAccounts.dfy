/**
 Retry accounting for any number of runners. Leases keep the counts that runners remember fresh, so
 the accounts can go wrong in one place only: an outcome remembered from an earlier attempt, applied
 to a job that has moved on. They hold over exactly the runs in which no such move declares an
 attempt retryable that is not.
 */
module RunnerAccounts {
  import opened Texts
  import opened RunnerTables
  import opened RunnerFencing
  import opened JobService
  import opened RunnerBudgets
  import opened RunnerProtocol
  import opened RunnerRows

  // ---- What a runner knows, however long ago it read it -------------------------------------------------------------

  /** The token is on the row of the job's current attempt. */
  predicate Live(db: Db, k: RunKey, token: string) {
    k in db.runs && Holds(db.runs[k], token) && k.job in db.jobs && db.jobs[k.job].attempt == k.attempt
  }

  predicate CanceledAt(db: Db, k: RunKey) {
    k.job in db.jobs && db.jobs[k.job].state.Canceled? && db.jobs[k.job].attempt == k.attempt
  }

  predicate EndedRetryable(db: Db, k: RunKey) {
    k in db.runs && db.runs[k].status == Some(XFailedRetryable)
  }

  /** A remembered count is the budget for as long as the runner's lease is on the current attempt. */
  predicate Counted(db: Db, k: RunKey, token: string, count: nat, s: RetryStage) {
    Live(db, k, token) ==> count == Budget(db, k.job, s)
  }

  predicate Knows(db: Db, l: Local) {
    match l
    case SubmitCounted(k, token, count) => Counted(db, k, token, count, Submission)
    case PollRefused(k, token, row, count) => Counted(db, k, token, count, row.retryStage)
    case PollCounted(k, token, report, count) => Counted(db, k, token, count, Poll(report.stage))
    case CancelBegun(k, _, _) => CanceledAt(db, k)
    case CancelCounted(k, token, count) => CanceledAt(db, k) && Counted(db, k, token, count, CancelStage)
    case Polled(k, target, _, _) => target.FailedRetryable? ==> EndedRetryable(db, k)
    case Finalizing(k, _, row) => row.status == Some(XFailedRetryable) ==> EndedRetryable(db, k)
    case _ => true
  }

  /** The lease token that a runner remembers. */
  function TokenHeld(l: Local): Option<string> {
    match l
    case Idle => None
    case Polled(_, _, _, _) => None
    case _ => Some(l.token)
  }

  ghost predicate Inv(w: World) {
    Accounted(w.db) && forall r :: r in w.runners ==> Knows(w.db, w.runners[r])
  }

  // ---- Guarded steps ------------------------------------------------------------------------------------------------

  /** The job is still at this attempt, or its current attempt ended retryable as well. */
  predicate Owned(db: Db, k: RunKey) {
    k.job in db.jobs && (db.jobs[k.job].attempt == k.attempt
                         || EndedRetryable(db, RunKey(k.job, db.jobs[k.job].attempt)))
  }

  /** No other runner remembers the token. */
  predicate FreshToken(w: World, r: nat, token: string) {
    forall q :: q in w.runners && q != r ==> TokenHeld(w.runners[q]) != Some(token)
  }

  /** A claim draws a fresh token, and a remembered retryable outcome is applied to its own attempt. */
  predicate Guarded(w: World, s: Step) {
    match s
    case Claim(r, _, _, _, lease) => FreshToken(w, r, lease.token)
    case ClaimLookup(r, _, _, lease) => FreshToken(w, r, lease.token)
    case ClaimRun(r, _, _, _, lease) => FreshToken(w, r, lease.token)
    case ApplyOutcome(r, _, _) =>
      LocalOf(w, r).Polled? && LocalOf(w, r).target.FailedRetryable? ==> Owned(w.db, LocalOf(w, r).k)
    case Finalize(r, _, _) =>
      LocalOf(w, r).Finalizing? && LocalOf(w, r).row.status == Some(XFailedRetryable) ==> Owned(w.db, LocalOf(w, r).k)
    case _ => true
  }

  ghost predicate AllGuarded(steps: seq<Step>)
    decreases |steps|
  {
    steps == []
    || (var n := |steps| - 1; AllGuarded(steps[..n]) && Guarded(RunAll(START, steps[..n]), steps[n]))
  }

  // ---- Knowledge survives -------------------------------------------------------------------------------------------

  /** A token appears on a row only through a claim that carries it. */
  lemma TokenClaimed(db: Db, call: Call, k: RunKey, token: string)
    requires k in Apply(db, call).0.runs && Holds(Apply(db, call).0.runs[k], token)
    requires LeaseOf(call).None? || LeaseOf(call).value.token != token
    ensures k in db.runs && Holds(db.runs[k], token)
  {
    hide Apply, UpdateOk, Matches, RowOk;
    if k in db.runs {
      if !Holds(db.runs[k], token) {
        LeaseTakenByClaim(db, call, k, token);
      }
    } else {
      RowInserted(db, call, k);
      InsertedLease(db, call);
    }
  }

  lemma InsertedLease(db: Db, call: Call)
    requires Inserts(db, call).Some?
    ensures var r := Inserts(db, call).value;
      && (LeaseOf(call).None? ==> r.lease.None? && After(call, r).lease.None?)
      && (LeaseOf(call).Some? ==> r.lease == LeaseOf(call) && After(call, r).lease == LeaseOf(call))
  {
  }

  /** A charged call gives the lease of its row up. */
  lemma ChargedReleases(db: Db, call: Call)
    requires Charges(call).Some? && Apply(db, call).1.Yes?
    ensures call.k in Apply(db, call).0.runs && Apply(db, call).0.runs[call.k].lease.None?
    ensures call.k in db.runs && Matches(db, call, db.runs[call.k])
  {
    StatementApplied(db, call);
    hide UpdateOk, Apply, Matches;
  }

  /** A charged call that was not answered `Yes` changed nothing. */
  lemma UnansweredCharge(db: Db, call: Call)
    requires Charges(call).Some? && !Apply(db, call).1.Yes?
    ensures Apply(db, call).0 == db
  {
    StatementApplied(db, call);
    hide UpdateOk, Apply, Matches, After;
  }

  predicate Current(db: Db, k: RunKey) {
    k.job in db.jobs && db.jobs[k.job].attempt == k.attempt
  }

  lemma CountedAfterCall(db: Db, call: Call, k: RunKey, token: string, count: nat, s: RetryStage)
    requires Counted(db, k, token, count, s)
    requires LeaseOf(call).Some? ==> LeaseOf(call).value.token != token
    requires Charges(call).Some? && Apply(db, call).1.Yes? ==> Current(db, call.k)
    ensures Counted(Apply(db, call).0, k, token, count, s)
  {
    hide Apply, Charges;
    var d := Apply(db, call).0;
    if Live(d, k, token) {
      TokenClaimed(db, call, k, token);
      CallJobs(db, call, k.job);
      CallBudgets(db, call);
      if Charges(call).Some? && Apply(db, call).1.Yes? {
        ChargedReleases(db, call);
        assert k != call.k;
      }
    }
  }

  /** One call leaves what another runner knows true. */
  lemma CallKnows(db: Db, call: Call, l: Local)
    requires Knows(db, l)
    requires LeaseOf(call).Some? ==> TokenHeld(l) != Some(LeaseOf(call).value.token)
    requires Charges(call).Some? && Apply(db, call).1.Yes? ==> Current(db, call.k)
    ensures Knows(Apply(db, call).0, l)
  {
    hide Apply, Counted, Charges, LeaseOf;
    match l
    case SubmitCounted(k, token, count) => CountedAfterCall(db, call, k, token, count, Submission);
    case PollRefused(k, token, row, count) => CountedAfterCall(db, call, k, token, count, row.retryStage);
    case PollCounted(k, token, report, count) => CountedAfterCall(db, call, k, token, count, Poll(report.stage));
    case CancelBegun(k, _, _) => CallJobs(db, call, k.job);
    case CancelCounted(k, token, count) =>
      CallJobs(db, call, k.job);
      CountedAfterCall(db, call, k, token, count, CancelStage);
    case Polled(k, target, _, _) => if target.FailedRetryable? { StatusStays(db, call, k); }
    case Finalizing(k, _, row) => if row.status == Some(XFailedRetryable) { StatusStays(db, call, k); }
    case _ =>
  }

  /** So does a job operation. */
  lemma OpKnows(db: Db, op: DbOp, l: Local)
    requires AttemptsOk(db) && !op.OpCall? && Knows(db, l)
    ensures Knows(Perform(db, op).0, l)
  {
    hide Perform, AttemptsOk;
    ServiceKeepsRuns(db, op);
    if !l.Idle? && l.k.job in db.jobs {
      JobAfter(db, op, l.k.job);
      JobsForward(db, op, l.k.job);
    }
    if !l.Idle? && l.k in db.runs {
      RowBelongs(db, l.k);
    }
  }

  lemma RowBelongs(db: Db, k: RunKey)
    requires AttemptsOk(db) && k in db.runs
    ensures k.job in db.jobs && k.attempt <= db.jobs[k.job].attempt
  {
  }

  /** Only the current attempt can be open or unanswered. */
  lemma OpenIsCurrent(db: Db, k: RunKey)
    requires AttemptsOk(db) && k in db.runs && db.runs[k].status != Some(XFailedRetryable)
    ensures Current(db, k)
  {
    assert k == RunKey(k.job, k.attempt);
  }

  // ---- Every guarded step keeps the invariant -----------------------------------------------------------------------

  ghost predicate OthersKnow(w: World, d: Db, r: nat) {
    forall q :: q in w.runners && q != r ==> Knows(d, w.runners[q])
  }

  lemma KnownAfter(w: World, d: Db, r: nat, l: Local)
    requires Accounted(d) && OthersKnow(w, d, r) && Knows(d, l)
    ensures Inv(At(w, d, r, l))
  {
    hide Accounted, Knows;
  }

  lemma OthersAfterCall(w: World, r: nat, call: Call)
    requires Inv(w) && (LeaseOf(call).Some? ==> FreshToken(w, r, LeaseOf(call).value.token))
    requires Charges(call).Some? && Apply(w.db, call).1.Yes? ==> Current(w.db, call.k)
    ensures OthersKnow(w, Apply(w.db, call).0, r)
  {
    hide Apply, Knows, Accounted, Charges, LeaseOf, TokenHeld;
    forall q | q in w.runners && q != r ensures Knows(Apply(w.db, call).0, w.runners[q]) {
      CallKnows(w.db, call, w.runners[q]);
    }
  }

  /** A call that charges nothing. */
  lemma CalledKeeps(w: World, r: nat, call: Call, next: Local)
    requires
      && Inv(w) && Charges(call).None? && LeaseOf(call).None?
      && !(call.RecordPollStatus? && call.status.XFailedRetryable?)
    requires Knows(Apply(w.db, call).0, next)
    ensures Inv(Called(w, r, call, next))
  {
    hide Apply, Knows, Accounted, OthersKnow, LeaseOf, Charges;
    UnchargedCall(w.db, call);
    OthersAfterCall(w, r, call);
    assert Knows(Apply(w.db, call).0, Idle) by { IdleKnows(Apply(w.db, call).0); }
    KnownAfter(w, Apply(w.db, call).0, r, if Apply(w.db, call).1.Yes? then next else Idle);
  }

  lemma IdleKnows(db: Db)
    ensures Knows(db, Idle)
  {
  }

  /** A charged call, on the current attempt and within the limit or final. */
  lemma ChargedKeeps(w: World, r: nat, call: Call, next: Local)
    requires Inv(w) && Charges(call).Some? && LeaseOf(call).None?
    requires Apply(w.db, call).1.Yes? ==>
      && Current(w.db, call.k) && Knows(Apply(w.db, call).0, next)
      && (call.RecordPollStatus? && call.status.XFailedRetryable? ==> Charges(call).value.Poll?)
      && (|| Budget(w.db, call.k.job, Charges(call).value) + 1 <= MaxRetries(w.db, call.k.job)
          || (call.RecordPollStatus? && call.status.XFailedFinal? && Charges(call).value.Poll?))
    ensures Inv(Called(w, r, call, next))
  {
    hide Apply, Knows, Accounted, OthersKnow, LeaseOf, Charges, Budget, MaxRetries;
    if Apply(w.db, call).1.Yes? {
      ChargedCall(w.db, call);
    } else {
      UnansweredCharge(w.db, call);
      IdleKnows(w.db);
    }
    OthersAfterCall(w, r, call);
    KnownAfter(w, Apply(w.db, call).0, r, if Apply(w.db, call).1.Yes? then next else Idle);
  }

  lemma LocalKeeps(w: World, r: nat, l: Local)
    requires Inv(w) && Knows(w.db, l)
    ensures Inv(At(w, w.db, r, l))
  {
    hide Accounted, Knows;
  }

  lemma KnownHere(w: World, r: nat)
    requires Inv(w)
    ensures Knows(w.db, LocalOf(w, r)) && AttemptsOk(w.db)
  {
    hide Knows, AttemptsOk;
    IdleKnows(w.db);
    AttemptsOf(w.db);
  }

  // Counted calls of each kind.

  lemma SubmitFailureKeeps(w: World, r: nat, nextAt: Time, f: Failure)
    requires Inv(w) && LocalOf(w, r).SubmitCounted? && LocalOf(w, r).count + 1 <= MaxRetries(w.db, LocalOf(w, r).k.job)
    ensures var l := LocalOf(w, r); Inv(Called(w, r, RecordSubmitFailure(l.k, l.token, Some(nextAt), f), Idle))
  {
    hide Apply, Accounted, AttemptsOk, Called, Inv, Budget, MaxRetries;
    var l := LocalOf(w, r);
    var call := RecordSubmitFailure(l.k, l.token, Some(nextAt), f);
    KnownHere(w, r);
    if Apply(w.db, call).1.Yes? {
      ChargedReleases(w.db, call);
      OpenIsCurrent(w.db, l.k);
    }
    ChargedKeeps(w, r, call, Idle);
  }

  lemma CancelFailureKeeps(w: World, r: nat, retryAt: Time, f: Failure)
    requires Inv(w) && LocalOf(w, r).CancelCounted? && LocalOf(w, r).count + 1 <= MaxRetries(w.db, LocalOf(w, r).k.job)
    ensures var l := LocalOf(w, r); Inv(Called(w, r, RecordCancelFailure(l.k, l.token, retryAt, f), Idle))
  {
    hide Apply, Accounted, AttemptsOk, Called, Inv, Budget, MaxRetries;
    var l := LocalOf(w, r);
    var call := RecordCancelFailure(l.k, l.token, retryAt, f);
    KnownHere(w, r);
    if Apply(w.db, call).1.Yes? {
      ChargedReleases(w.db, call);
    }
    ChargedKeeps(w, r, call, Idle);
  }

  lemma ReportKeeps(w: World, r: nat, stage: Option<Stage>, nextAt: Time, now: Time)
    requires Inv(w) && LocalOf(w, r).PollCounted?
    ensures Inv(ReportStep(w, r, LocalOf(w, r), stage, nextAt, now))
  {
    hide Apply, Accounted, AttemptsOk, Called, Inv, Budget, MaxRetries;
    var l := LocalOf(w, r);
    var rep := l.report;
    var consume := rep.retryable && rep.transient;
    var again := consume && l.count + 1 <= MaxRetries(w.db, l.k.job);
    var call := RecordPollStatus(l.k, l.token, if again then XFailedRetryable else XFailedFinal, stage,
                                 Poll(rep.stage), consume,
                                 if again then Some(nextAt) else None, if again then None else Some(now),
                                 Some(rep.failure), None);
    var next := Polled(l.k, if again then FailedRetryable else FailedFinal, rep.failure, stage);
    KnownHere(w, r);
    if consume {
      if Apply(w.db, call).1.Yes? {
        ChargedReleases(w.db, call);
        PollStatusRow(w.db, call);
        OpenIsCurrent(w.db, l.k);
      }
      ChargedKeeps(w, r, call, next);
    } else {
      CalledKeeps(w, r, call, next);
    }
  }

  lemma RaiseKeeps(w: World, r: nat, transient: bool, f: Failure, nextAt: Time, now: Time)
    requires Inv(w) && LocalOf(w, r).PollRefused?
    ensures Inv(RaiseStep(w, r, LocalOf(w, r), transient, f, nextAt, now))
  {
    hide Apply, Accounted, AttemptsOk, Called, Inv, Budget, MaxRetries;
    var l := LocalOf(w, r);
    KnownHere(w, r);
    if transient {
      if l.count + 1 <= MaxRetries(w.db, l.k.job) {
        var call := RecordPollFailure(l.k, l.token, Some(nextAt), l.row.stage, l.row.retryStage, f);
        if Apply(w.db, call).1.Yes? {
          ChargedReleases(w.db, call);
          OpenIsCurrent(w.db, l.k);
        }
        ChargedKeeps(w, r, call, Idle);
      }
    } else {
      CalledKeeps(w, r, RecordPollStatus(l.k, l.token, XFailedFinal, l.row.stage, l.row.retryStage, false, None,
                                         Some(now), Some(f), None),
                  Polled(l.k, FailedFinal, f, l.row.stage));
    }
  }

  /** Moving a job: the runner is left with nothing, or with what it knew. */
  lemma MoveKeeps(w: World, r: nat, k: RunKey, s: JobState, t: JobState, f: Failure, stage: Option<Stage>, now: Time,
                  intact: bool, next: Local)
    requires Inv(w) && (t.FailedRetryable? ==> CurrentRetryable(w.db, k.job) || k.job !in w.db.jobs)
    requires next.Idle? || next.Requeued? || (next.Finalizing? && Knows(w.db, next))
    ensures Inv(MoveJob(w, r, k, s, t, f, stage, now, intact, next))
  {
    hide Accounted, AttemptsOk, Transition, Perform, Knows, OthersKnow;
    var op := OpTransition(k.job, s, t, f, t.FailedRetryable? || t.FailedFinal?, stage, now, intact);
    var d := Perform(w.db, op).0;
    PerformIsTransition(w.db, op);
    AttemptsOf(w.db);
    MoveAttempts(w.db, op);
    JobOpAccounts(w.db, op);
    OthersAfterOp(w, r, op);
    var l := if Perform(w.db, op).1.Yes? then next else Idle;
    assert Knows(d, l) by {
      if l.Finalizing? {
        OpKnows(w.db, op, l);
      } else {
        Plain(d, l);
      }
    }
    KnownAfter(w, d, r, l);
  }

  lemma Plain(db: Db, l: Local)
    requires l.Idle? || l.Requeued?
    ensures Knows(db, l)
  {
  }

  lemma PerformIsTransition(db: Db, op: DbOp)
    requires op.OpTransition?
    ensures Perform(db, op) == Transition(db, op.key, op.expected, op.target, op.reason, op.coded, op.stage,
                                          op.now, op.intact)
  {
  }

  lemma OthersAfterOp(w: World, r: nat, op: DbOp)
    requires Inv(w) && !op.OpCall?
    ensures OthersKnow(w, Perform(w.db, op).0, r)
  {
    hide Perform, Knows, Accounted, AttemptsOk;
    AttemptsOf(w.db);
    forall q | q in w.runners && q != r ensures Knows(Perform(w.db, op).0, w.runners[q]) {
      OpKnows(w.db, op, w.runners[q]);
    }
  }

  /** An outcome that the runner knows, applied where it belongs. */
  lemma OwnedIsRetryable(db: Db, k: RunKey)
    requires Owned(db, k) && EndedRetryable(db, k)
    ensures CurrentRetryable(db, k.job)
  {
    assert k == RunKey(k.job, k.attempt);
  }

  lemma FinalizeKeeps(w: World, r: nat, now: Time, intact: bool)
    requires Inv(w) && LocalOf(w, r).Finalizing? && Guarded(w, Finalize(r, now, intact))
    ensures Inv(FinalizeStep(w, r, LocalOf(w, r), now, intact))
  {
    hide Accounted, AttemptsOk, Inv, MoveJob, ProvenanceOk, PaidWindow, Owned, CurrentRetryable;
    var l := LocalOf(w, r);
    KnownHere(w, r);
    if l.row.status == Some(XFailedRetryable) {
      OwnedIsRetryable(w.db, l.k);
    }
    var k := l.k;
    var f := Failure(if l.row.errorCode.Some? then l.row.errorCode.value else "",
                     if l.row.errorSummary.Some? then l.row.errorSummary.value else "");
    if l.row.status.Some? {
      match l.row.status.value
      case XSucceeded => MoveKeeps(w, r, k, Running, Succeeded, f, l.row.stage, now, intact, l);
      case XCanceled => MoveKeeps(w, r, k, Running, Canceled, f, l.row.stage, now, intact, Idle);
      case XFailedRetryable =>
        MoveKeeps(w, r, k, Queued, FailedRetryable, f, l.row.stage, now, intact, Idle);
        MoveKeeps(w, r, k, Running, FailedRetryable, f, l.row.stage, now, intact, Idle);
      case XFailedFinal =>
        MoveKeeps(w, r, k, Queued, Running, f, None, now, intact, l);
        MoveKeeps(w, r, k, Running, FailedFinal, f, l.row.stage, now, intact, Idle);
      case _ =>
    }
  }

  /** A claim by an idle runner, with a token nobody else remembers. */
  lemma ClaimKeeps(w: World, r: nat, call: Call, next: Run -> Local)
    requires Inv(w) && LeaseOf(call).Some? && FreshToken(w, r, LeaseOf(call).value.token)
    requires var out := Apply(w.db, call); out.1.Yes? && call.k in out.0.runs ==> Knows(out.0, next(out.0.runs[call.k]))
    ensures Inv(ClaimStep(w, r, call, next))
  {
    hide Apply, Knows, Accounted, OthersKnow, FreshToken;
    UnchargedCall(w.db, call);
    OthersAfterCall(w, r, call);
    var out := Apply(w.db, call);
    IdleKnows(out.0);
    KnownAfter(w, out.0, r, if out.1.Yes? && call.k in out.0.runs then next(out.0.runs[call.k]) else Idle);
  }

  lemma ClaimedKnows(db: Db, k: RunKey, purpose: Purpose, now: Time, lease: Lease)
    requires var out := Apply(db, ClaimFor(k, purpose, now, lease)); out.1.Yes? && k in out.0.runs
    ensures var d := Apply(db, ClaimFor(k, purpose, now, lease)).0;
      Knows(d, HeldFor(k, purpose, lease.token, d.runs[k]))
  {
    StatementApplied(db, ClaimFor(k, purpose, now, lease));
    hide Apply, UpdateOk;
  }

  lemma StepKeeps(w: World, s: Step)
    requires Inv(w) && Guarded(w, s)
    ensures Inv(Next(w, s))
  {
    hide Inv, Knows, Called, ClaimStep, MoveJob, SubmitStep, LookupStep, RecordStep, CancelStep, FinalizeStep,
      ReportStep, RaiseStep, Perform, Apply, KeyText, LocalOf, FreshToken, Owned, ServiceOp, Housekeeping, ClaimFor,
      HeldFor;
    match s
    case Service(op) => if ServiceOp(op) { ServiceKeeps(w, op); }
    case Housekeep(call) => if Housekeeping(call) { HousekeepKeeps(w, call); }
    case Claim(r, k, state, now, lease) =>
      var call := ClaimSubmission(k, state, KeyText(k), EXECUTOR, now, lease);
      Unknowing(Apply(w.db, call).0);
      ClaimKeeps(w, r, call, row => Launching(k, lease.token, row));
    case ClaimLookup(r, k, now, lease) =>
      var call := ClaimCanceledLookup(k, now, lease);
      Unknowing(Apply(w.db, call).0);
      ClaimKeeps(w, r, call, row => LookingUp(k, lease.token, row));
    case ClaimRun(r, k, purpose, now, lease) => ClaimRunKeeps(w, r, k, purpose, now, lease);
    case Finalize(r, now, intact) => if LocalOf(w, r).Finalizing? { FinalizeKeeps(w, r, now, intact); }
    case RecordReport(r, stage, nextAt, now) => if LocalOf(w, r).PollCounted? { ReportKeeps(w, r, stage, nextAt, now); }
    case RecordRaise(r, transient, failure, nextAt, now) =>
      if LocalOf(w, r).PollRefused? {
        RaiseKeeps(w, r, transient, failure, nextAt, now);
      }
    case _ => OtherKeeps(w, s);
  }

  /** Most things a runner holds say nothing about the tables. */
  lemma Unknowing(db: Db)
    ensures forall l: Local ::
      l.Launching? || l.LookingUp? || l.Received? || l.Polling? || l.CancelConfirmed? || l.Requeued? ==> Knows(db, l)
  {
  }

  lemma ClaimRunKeeps(w: World, r: nat, k: RunKey, purpose: Purpose, now: Time, lease: Lease)
    requires Inv(w) && FreshToken(w, r, lease.token)
    ensures Inv(ClaimStep(w, r, ClaimFor(k, purpose, now, lease), row => HeldFor(k, purpose, lease.token, row)))
  {
    hide Inv, Knows, Apply, HeldFor, FreshToken;
    var call := ClaimFor(k, purpose, now, lease);
    if Apply(w.db, call).1.Yes? && k in Apply(w.db, call).0.runs {
      ClaimedKnows(w.db, k, purpose, now, lease);
    }
    ClaimKeeps(w, r, call, row => HeldFor(k, purpose, lease.token, row));
  }

  lemma ServiceKeeps(w: World, op: DbOp)
    requires Inv(w) && ServiceOp(op)
    ensures Inv(w.(db := Perform(w.db, op).0))
  {
    hide Accounted, Knows, Perform, OthersKnow;
    ServiceAccounts(w.db, op);
    var d := Perform(w.db, op).0;
    forall q | q in w.runners ensures Knows(d, w.runners[q]) {
      OthersAfterOp(w, q + 1, op);
      assert OthersKnow(w, d, q + 1) ==> Knows(d, w.runners[q]) by { Among(w, d, q); }
    }
  }

  lemma Among(w: World, d: Db, q: nat)
    requires q in w.runners && OthersKnow(w, d, q + 1)
    ensures Knows(d, w.runners[q])
  {
    hide Knows;
  }

  lemma HousekeepKeeps(w: World, call: Call)
    requires Inv(w) && Housekeeping(call)
    ensures Inv(w.(db := Apply(w.db, call).0))
  {
    hide Accounted, Knows, Apply, OthersKnow;
    UnchargedCall(w.db, call);
    var d := Apply(w.db, call).0;
    forall q | q in w.runners ensures Knows(d, w.runners[q]) {
      OthersAfterCall(w, q + 1, call);
      Among(w, d, q);
    }
  }

  /** A step that leaves the tables alone. */
  lemma TablesKept(w: World, v: World, r: nat, l: Local)
    requires Inv(w) && v.db == w.db && Knows(w.db, l)
    requires v.runners == w.runners || v.runners == w.runners[r := l]
    ensures Inv(v)
  {
    hide Accounted, Knows;
  }

  /** Calls of the provider change no table, and what they return says nothing about the tables. */
  lemma RemoteKeeps(w: World, s: Step)
    requires Inv(w) && (s.Submit? || s.Lookup? || s.CancelRun?)
    ensures Inv(Next(w, s))
  {
    hide Inv, Knows, KeyText, PaidWindow;
    var v := Next(w, s);
    Unknowing(w.db);
    IdleKnows(w.db);
    var l := if v.runners == w.runners then Idle else v.runners[s.r];
    assert v.db == w.db && (v.runners == w.runners || v.runners == w.runners[s.r := l]);
    TablesKept(w, v, s.r, l);
  }

  lemma RecordKeeps(w: World, r: nat, now: Time)
    requires Inv(w) && LocalOf(w, r).Received?
    ensures Inv(RecordStep(w, r, LocalOf(w, r), now))
  {
    hide Inv, Knows, KeyText, PaidWindow, ProvenanceOk, Called, Apply;
    var l := LocalOf(w, r);
    var ext := Acceptance(l.ext.runId, l.ext.acceptedAt, now);
    var a := RecordLookupAcceptance(l.k, l.token, l.ext.key, EXECUTOR, ext);
    var b := RecordAcceptance(l.k, l.token, l.ext.key, EXECUTOR, ext);
    IdleKnows(Apply(w.db, a).0);
    IdleKnows(Apply(w.db, b).0);
    CalledKeeps(w, r, a, Idle);
    CalledKeeps(w, r, b, Idle);
  }

  /** A runner that reads a budget knows it at that moment. */
  lemma CountKeeps(w: World, r: nat, l: Local)
    requires Inv(w)
    requires l.SubmitCounted? ==> l.count == Budget(w.db, l.k.job, Submission)
    requires l.PollRefused? ==> l.count == Budget(w.db, l.k.job, l.row.retryStage)
    requires l.PollCounted? ==> l.count == Budget(w.db, l.k.job, Poll(l.report.stage))
    requires l.CancelCounted? ==> l.count == Budget(w.db, l.k.job, CancelStage) && CanceledAt(w.db, l.k)
    requires l.SubmitCounted? || l.PollRefused? || l.PollCounted? || l.CancelCounted?
    ensures Inv(At(w, w.db, r, l))
  {
    hide Accounted, Inv;
    LocalKeeps(w, r, l);
  }

  lemma BegunIsCanceled(w: World, r: nat)
    requires Inv(w) && LocalOf(w, r).CancelBegun?
    ensures CanceledAt(w.db, LocalOf(w, r).k)
  {
    hide Accounted;
  }

  /** The outcome of a successful or canceled poll. */
  lemma OutcomeKeeps(w: World, r: nat, call: Call, next: Local)
    requires Inv(w) && Charges(call).None? && call.RecordPollStatus? && !call.status.XFailedRetryable?
    requires next.Idle? || (next.Polled? && !next.target.FailedRetryable?)
    ensures Inv(Called(w, r, call, next))
  {
    hide Inv, Called, Apply;
    assert Knows(Apply(w.db, call).0, next);
    CalledKeeps(w, r, call, next);
  }

  lemma ApplyKeeps(w: World, r: nat, now: Time, intact: bool)
    requires Inv(w) && LocalOf(w, r).Polled? && Guarded(w, ApplyOutcome(r, now, intact))
    ensures var l := LocalOf(w, r); Inv(MoveJob(w, r, l.k, Running, l.target, l.failure, l.stage, now, intact, Idle))
  {
    hide Inv, MoveJob, Owned, CurrentRetryable, AttemptsOk;
    var l := LocalOf(w, r);
    KnownHere(w, r);
    if l.target.FailedRetryable? {
      OwnedIsRetryable(w.db, l.k);
    }
    MoveKeeps(w, r, l.k, Running, l.target, l.failure, l.stage, now, intact, Idle);
  }

  /** The remaining steps of a runner. */
  lemma OtherKeeps(w: World, s: Step)
    requires Inv(w) && Guarded(w, s)
    requires !s.Service? && !s.Housekeep? && !s.Claim? && !s.ClaimLookup? && !s.ClaimRun? && !s.Finalize?
    requires !s.RecordReport? && !s.RecordRaise?
    ensures Inv(Next(w, s))
  {
    hide Inv, Knows, Called, ClaimStep, MoveJob, SubmitStep, LookupStep, RecordStep, CancelStep, FinalizeStep,
      ReportStep, RaiseStep, Perform, Apply, KeyText, LocalOf, FreshToken, Owned, ServiceOp, Housekeeping, ClaimFor,
      HeldFor, Budget, MaxRetries, Guarded;
    var r, l := s.r, LocalOf(w, s.r);
    match s
    case Crash(_) =>
      IdleKnows(w.db);
      LocalKeeps(w, r, Idle);
    case Submit(_, _, _) => RemoteKeeps(w, s);
    case Lookup(_) => RemoteKeeps(w, s);
    case CancelRun(_) => RemoteKeeps(w, s);
    case Record(_, now) => if l.Received? { RecordKeeps(w, r, now); }
    case SubmitFails(_) =>
      if l.Launching? {
        CountKeeps(w, r, SubmitCounted(l.k, l.token, Budget(w.db, l.k.job, Submission)));
      }
    case PollReports(_, report) =>
      if l.Polling? { CountKeeps(w, r, PollCounted(l.k, l.token, report, Budget(w.db, l.k.job, Poll(report.stage)))); }
    case PollRaises(_) =>
      if l.Polling? {
        CountKeeps(w, r, PollRefused(l.k, l.token, l.row, Budget(w.db, l.k.job, l.row.retryStage)));
      }
    case CancelFails(_) =>
      if l.CancelBegun? {
        BegunIsCanceled(w, r);
        CountKeeps(w, r, CancelCounted(l.k, l.token, Budget(w.db, l.k.job, CancelStage)));
      }
    case RecordSubmitFails(_, nextAt, failure) =>
      if l.SubmitCounted? && l.count + 1 <= MaxRetries(w.db, l.k.job) { SubmitFailureKeeps(w, r, nextAt, failure); }
    case RecordCancelFails(_, retryAt, failure) =>
      if l.CancelCounted? && l.count + 1 <= MaxRetries(w.db, l.k.job) { CancelFailureKeeps(w, r, retryAt, failure); }
    case _ => if s.PollLive? || s.PollSucceeds? || s.PollCanceled? { PollKeeps(w, s); } else { WrittenKeeps(w, s); }
  }

  /** Polls that end without a charge. */
  lemma PollKeeps(w: World, s: Step)
    requires Inv(w) && (s.PollLive? || s.PollSucceeds? || s.PollCanceled?)
    ensures Inv(Next(w, s))
  {
    hide Inv, Called, Apply, LocalOf;
    var r, l := s.r, LocalOf(w, s.r);
    match s
    case PollLive(_, status, stage, retryStage, nextAt, note) => if l.Polling? && !Terminal(status) {
      OutcomeKeeps(w, r, RecordPollStatus(l.k, l.token, status, stage, Poll(retryStage), false, Some(nextAt), None,
                                          note, None), Idle); }
    case PollSucceeds(_, stage, retryStage, now, result) => if l.Polling? {
      OutcomeKeeps(w, r, RecordPollStatus(l.k, l.token, XSucceeded, stage, Poll(retryStage), false, None,
                                          Some(now), None, Some(result)),
                   Polled(l.k, Succeeded, Failure("", "external execution succeeded"), stage)); }
    case PollCanceled(_, stage, retryStage, now) => if l.Polling? {
      OutcomeKeeps(w, r, RecordPollStatus(l.k, l.token, XCanceled, stage, Poll(retryStage), false, None, Some(now),
                                          None, None),
                   Polled(l.k, Canceled, Failure("", "external execution canceled"), stage)); }
  }

  /** Steps that move the job or end a retry or a cancellation. */
  lemma WrittenKeeps(w: World, s: Step)
    requires Inv(w) && Guarded(w, s)
    requires s.ApplyOutcome? || s.Retry? || s.Consume? || s.RecordCanceled?
    ensures Inv(Next(w, s))
  {
    hide Inv, Knows, Called, ClaimStep, MoveJob, SubmitStep, LookupStep, RecordStep, CancelStep, FinalizeStep,
      ReportStep, RaiseStep, Perform, Apply, KeyText, LocalOf, FreshToken, Owned, ServiceOp, Housekeeping, ClaimFor,
      HeldFor, Budget, MaxRetries, Guarded;
    var r, l := s.r, LocalOf(w, s.r);
    match s
    case ApplyOutcome(_, now, intact) => if l.Polled? { ApplyKeeps(w, r, now, intact); }
    case Retry(_, now, intact) => if l.Requeueing? {
      MoveKeeps(w, r, l.k, FailedRetryable, Queued, Failure("", "job retry requested through Worker API"), None,
                now, intact,
                Requeued(l.k, l.token)); }
    case Consume(_) => if l.Requeued? {
      IdleKnows(Apply(w.db, MarkRetryConsumed(l.k, l.token)).0);
      CalledKeeps(w, r, MarkRetryConsumed(l.k, l.token), Idle); }
    case RecordCanceled(_, now) => if l.CancelConfirmed? {
      IdleKnows(Apply(w.db, RecordRemoteCanceled(l.k, l.token, now)).0);
      CalledKeeps(w, r, RecordRemoteCanceled(l.k, l.token, now), Idle); }
  }

  // ---- Whole runs ---------------------------------------------------------------------------------------------------

  lemma {:induction false} RunsKeep(steps: seq<Step>)
    requires AllGuarded(steps)
    ensures Inv(RunAll(START, steps))
    decreases |steps|
  {
    hide Next, Inv, Guarded;
    if steps == [] {
      StartKeeps();
    } else {
      RunsKeep(steps[..|steps| - 1]);
      StepKeeps(RunAll(START, steps[..|steps| - 1]), steps[|steps| - 1]);
    }
  }

  lemma StartKeeps()
    ensures Inv(START)
  {
  }

  /** Retry accounting in every state that any number of runners reach by guarded steps: submission
      and cancel failures stay within the plan's limit, a poll stage passes it by at most one and then
      only because the current attempt ended final, and the attempts already used up never outnumber
      the charged poll failures. */
  lemma BudgetsHold(steps: seq<Step>, job: JobKey, s: RetryStage)
    requires AllGuarded(steps)
    ensures InBudget(RunAll(START, steps).db, job, s)
  {
    hide Next, Accounted, Knows, InBudget, AllGuarded;
    RunsKeep(steps);
    AccountedInBudget(RunAll(START, steps).db, job, s);
  }

  /** A runner moves a job on behalf of an attempt whose outcome it knows. */
  lemma MoveExactly(w: World, r: nat, k: RunKey, s: JobState, t: JobState, f: Failure, stage: Option<Stage>, now: Time,
                    intact: bool, next: Local)
    requires Accounted(w.db) && (t.FailedRetryable? ==> EndedRetryable(w.db, k))
    requires MoveJob(w, r, k, s, t, f, stage, now, intact, next).db != w.db
    ensures Accounted(MoveJob(w, r, k, s, t, f, stage, now, intact, next).db) <==>
      (t.FailedRetryable? ==> Owned(w.db, k))
  {
    hide Accounted, Transition, Perform, AttemptsOk;
    var op := OpTransition(k.job, s, t, f, t.FailedRetryable? || t.FailedFinal?, stage, now, intact);
    PerformIsTransition(w.db, op);
    MovedIsAnswered(w.db, op);
    MoveAccountsExactly(w.db, op);
    assert k == RunKey(k.job, k.attempt);
  }

  /** The condition is exact: from tables in order, an outcome that moves the job leaves them in order
      if and only if it is not retryable, or belongs to the job's current attempt, or the current
      attempt ended retryable itself. */
  lemma OutcomeKeepsAccounts(w: World, r: nat, now: Time, intact: bool)
    requires Accounted(w.db) && LocalOf(w, r).Polled? && OutcomeStands(w.db, LocalOf(w, r))
    requires Next(w, ApplyOutcome(r, now, intact)).db != w.db
    ensures var l := LocalOf(w, r);
      Accounted(Next(w, ApplyOutcome(r, now, intact)).db) <==> (l.target.FailedRetryable? ==> Owned(w.db, l.k))
  {
    hide Accounted, MoveJob, Owned;
    var l := LocalOf(w, r);
    MoveExactly(w, r, l.k, Running, l.target, l.failure, l.stage, now, intact, Idle);
  }

  /** So it is when a runner that claimed the ended run moves the job. */
  lemma FinalizeKeepsAccounts(w: World, r: nat, now: Time, intact: bool)
    requires Accounted(w.db) && LocalOf(w, r).Finalizing? && OutcomeStands(w.db, LocalOf(w, r))
    requires Next(w, Finalize(r, now, intact)).db != w.db
    ensures var l := LocalOf(w, r);
      Accounted(Next(w, Finalize(r, now, intact)).db) <==> (l.row.status == Some(XFailedRetryable) ==> Owned(w.db, l.k))
  {
    hide Accounted, MoveJob, Owned, ProvenanceOk, PaidWindow;
    var l := LocalOf(w, r);
    forall s, t, f, stage, next | MoveJob(w, r, l.k, s, t, f, stage, now, intact, next).db != w.db
      && (t.FailedRetryable? ==> EndedRetryable(w.db, l.k))
      ensures Accounted(MoveJob(w, r, l.k, s, t, f, stage, now, intact, next).db) <==>
        (t.FailedRetryable? ==> Owned(w.db, l.k))
    {
      MoveExactly(w, r, l.k, s, t, f, stage, now, intact, next);
    }
  }

  lemma MovedIsAnswered(db: Db, op: DbOp)
    requires op.OpTransition? && Perform(db, op).0 != db
    ensures Perform(db, op).1.Yes? && op.key in db.jobs
  {
    hide MayMove, CreatorBusy;
  }

  // ---- Remembered outcomes, in every run ----------------------------------------------------------------------------

  /** A retryable outcome that a runner is about to apply stands in the row of its attempt. */
  predicate OutcomeStands(db: Db, l: Local) {
    && (l.Polled? && l.target.FailedRetryable? ==> EndedRetryable(db, l.k))
    && (l.Finalizing? && l.row.status == Some(XFailedRetryable) ==> EndedRetryable(db, l.k))
  }

  ghost predicate AllStand(w: World) {
    forall r :: r in w.runners ==> OutcomeStands(w.db, w.runners[r])
  }

  lemma StillEnded(w: World, s: Step, k: RunKey)
    requires EndedRetryable(w.db, k)
    ensures EndedRetryable(Next(w, s).db, k)
  {
    hide Next, Perform, Proper;
    StepIsOneOp(w, s);
    var v := Next(w, s);
    if v.db != w.db {
      var op :| Proper(op) && v.db == Perform(w.db, op).0;
      EndedAfter(w.db, op, k);
    }
  }

  lemma EndedAfter(db: Db, op: DbOp, k: RunKey)
    requires EndedRetryable(db, k)
    ensures EndedRetryable(Perform(db, op).0, k)
  {
    if op.OpCall? {
      hide Apply;
      StatusStays(db, op.call, k);
    } else {
      hide Perform;
      ServiceKeepsRuns(db, op);
    }
  }

  /** What the stepping runner holds next: what it held, something without an outcome, an outcome it
      has just recorded, or a row it has just claimed. */
  lemma NewlyRemembered(w: World, s: Step, r: nat)
    requires AllStand(w) && !s.Service? && !s.Housekeep? && s.r == r
    ensures OutcomeStands(Next(w, s).db, LocalOf(Next(w, s), r))
  {
    hide Apply, KeyText, Budget, ProvenanceOk, PaidWindow, Transition, MaxRetries, ClaimFor, FinalizeStep, ReportStep;
    if s.RecordReport? && LocalOf(w, r).PollCounted? {
      ReportRemembered(w, r, LocalOf(w, r), s.stage, s.nextAt, s.now);
    } else if s.ClaimRun? {
      ClaimsItsRow(s.k, s.purpose, s.now, s.lease);
    } else if s.Finalize? && LocalOf(w, r).Finalizing? {
      FinalizeForgets(w, r, LocalOf(w, r), s.now, s.intact);
      if EndedRetryable(w.db, LocalOf(w, r).k) {
        StillEnded(w, s, LocalOf(w, r).k);
      }
    } else if LocalOf(w, r).Polled? || LocalOf(w, r).Finalizing? {
      if EndedRetryable(w.db, LocalOf(w, r).k) {
        StillEnded(w, s, LocalOf(w, r).k);
      }
    }
  }

  lemma FinalizeForgets(w: World, r: nat, l: Local, now: Time, intact: bool)
    requires l.Finalizing?
    ensures var v := FinalizeStep(w, r, l, now, intact); v == w || LocalOf(v, r).Idle? || LocalOf(v, r) == l
  {
    hide Transition, ProvenanceOk, PaidWindow;
  }

  lemma ClaimsItsRow(k: RunKey, purpose: Purpose, now: Time, lease: Lease)
    ensures ClaimFor(k, purpose, now, lease).k == k
  {
  }

  lemma ReportRemembered(w: World, r: nat, l: Local, stage: Option<Stage>, nextAt: Time, now: Time)
    requires l.PollCounted?
    ensures var v := ReportStep(w, r, l, stage, nextAt, now); OutcomeStands(v.db, LocalOf(v, r))
  {
    hide Apply, MaxRetries;
    var rep := l.report;
    var consume := rep.retryable && rep.transient;
    var again := consume && l.count + 1 <= MaxRetries(w.db, l.k.job);
    var call := RecordPollStatus(l.k, l.token, if again then XFailedRetryable else XFailedFinal, stage,
                                 Poll(rep.stage), consume,
                                 if again then Some(nextAt) else None, if again then None else Some(now),
                                 Some(rep.failure), None);
    if Apply(w.db, call).1.Yes? {
      PollStatusRow(w.db, call);
    }
  }

  /** Whatever runs, guarded or not, runners remember only outcomes that stand in the tables. */
  lemma {:induction false} OutcomesStand(steps: seq<Step>)
    ensures AllStand(RunAll(START, steps))
    decreases |steps|
  {
    if steps != [] {
      hide Next, OutcomeStands, EndedRetryable;
      var w, s := RunAll(START, steps[..|steps| - 1]), steps[|steps| - 1];
      OutcomesStand(steps[..|steps| - 1]);
      var v := Next(w, s);
      forall q | q in v.runners ensures OutcomeStands(v.db, v.runners[q]) {
        OneStands(w, s, q);
      }
    }
  }

  lemma OneStands(w: World, s: Step, q: nat)
    requires AllStand(w) && q in Next(w, s).runners
    ensures OutcomeStands(Next(w, s).db, Next(w, s).runners[q])
  {
    hide Next, EndedRetryable;
    var v := Next(w, s);
    if !s.Service? && !s.Housekeep? && s.r == q {
      NewlyRemembered(w, s, q);
    } else {
      OthersStay(w, s, q);
      var l := w.runners[q];
      if !l.Idle? && EndedRetryable(w.db, l.k) {
        StillEnded(w, s, l.k);
      }
    }
  }

  /** A step changes what one runner holds. */
  lemma OthersStay(w: World, s: Step, q: nat)
    requires (!s.Service? && !s.Housekeep? ==> s.r != q) && q in Next(w, s).runners
    ensures q in w.runners && Next(w, s).runners[q] == w.runners[q]
  {
    hide Apply, KeyText, Budget, ProvenanceOk, PaidWindow, Transition, MaxRetries, LocalOf, Perform, ClaimFor, HeldFor;
  }
}
