/**
 One runner, the worker API and crashes anywhere: a runner that works alone always meets the
 conditions of `RunnerAccounts`, so its retry accounts are in order in every run.
 */
module RunnerRetries {
  import opened Texts
  import opened RunnerTables
  import opened RunnerFencing
  import opened JobService
  import opened RunnerBudgets
  import opened RunnerProtocol
  import opened RunnerAccounts

  /** Runner steps belong to the one runner. */
  predicate Solo(s: Step) {
    match s
    case Service(_) => true
    case Housekeep(_) => true
    case _ => s.r == 0
  }

  /** The job is at this attempt and cannot leave it without the runner. */
  predicate Underway(db: Db, k: RunKey) {
    k.job in db.jobs && db.jobs[k.job].attempt == k.attempt && !db.jobs[k.job].state.FailedRetryable?
  }

  /** A runner with an outcome in its hands works on the job's current attempt. */
  predicate Attached(db: Db, l: Local) {
    l.Polling? || l.PollRefused? || l.PollCounted? || l.Polled? || l.Finalizing? ==> Underway(db, l.k)
  }

  predicate Alone(w: World) {
    w.runners.Keys <= {0} && Attached(w.db, LocalOf(w, 0))
  }

  // ---- The current attempt stays current ----------------------------------------------------------------------------

  lemma CallStays(db: Db, call: Call, k: RunKey)
    requires Underway(db, k)
    ensures Underway(Apply(db, call).0, k)
  {
    hide Apply;
    CallJobs(db, call, k.job);
  }

  /** Only a retry counts a new attempt, and it starts from FAILED_RETRYABLE. */
  lemma OpStays(db: Db, op: DbOp, k: RunKey)
    requires Underway(db, k) && !op.OpCall? && (op.OpTransition? ==> !op.target.FailedRetryable?)
    ensures Underway(Perform(db, op).0, k)
  {
    hide MayMove, CreatorBusy;
  }

  lemma ClaimedAttached(db: Db, k: RunKey, purpose: Purpose, now: Time, lease: Lease)
    requires purpose.ForFinalize? ==> purpose.state.Running? || purpose.state.Queued? || purpose.state.Succeeded?
    requires Apply(db, ClaimFor(k, purpose, now, lease)).1.Yes?
    ensures var d := Apply(db, ClaimFor(k, purpose, now, lease)).0;
      forall row :: Attached(d, HeldFor(k, purpose, lease.token, row))
  {
    StatementApplied(db, ClaimFor(k, purpose, now, lease));
    hide Apply, UpdateOk;
  }

  /** A runner that moves a job and keeps hold of it. */
  lemma MovedAttached(w: World, k: RunKey, s: JobState, t: JobState, f: Failure, stage: Option<Stage>, now: Time,
                      intact: bool, next: Local)
    requires !t.FailedRetryable? && Attached(w.db, next)
    ensures var v := MoveJob(w, 0, k, s, t, f, stage, now, intact, next); Attached(v.db, LocalOf(v, 0))
  {
    hide Transition, Perform, Underway;
    var op := OpTransition(k.job, s, t, f, t.FailedRetryable? || t.FailedFinal?, stage, now, intact);
    PerformIsTransition(w.db, op);
    if !next.Idle? && Underway(w.db, next.k) {
      OpStays(w.db, op, next.k);
    }
  }

  lemma FinalizeAttached(w: World, now: Time, intact: bool)
    requires Alone(w) && LocalOf(w, 0).Finalizing?
    ensures var v := FinalizeStep(w, 0, LocalOf(w, 0), now, intact); Attached(v.db, LocalOf(v, 0))
  {
    hide Transition, Underway, ProvenanceOk, PaidWindow;
    var l := LocalOf(w, 0);
    forall s, t: JobState, f, stage | !t.FailedRetryable?
      ensures var v := MoveJob(w, 0, l.k, s, t, f, stage, now, intact, l); Attached(v.db, LocalOf(v, 0))
    {
      MovedAttached(w, l.k, s, t, f, stage, now, intact, l);
    }
  }

  lemma CalledAttached(w: World, call: Call, next: Local)
    requires Attached(w.db, next)
    ensures var v := Called(w, 0, call, next); Attached(v.db, LocalOf(v, 0))
  {
    hide Apply, Underway;
    if !next.Idle? && Underway(w.db, next.k) {
      CallStays(w.db, call, next.k);
    }
  }

  lemma ReportAttached(w: World, stage: Option<Stage>, nextAt: Time, now: Time)
    requires Alone(w) && LocalOf(w, 0).PollCounted?
    ensures var v := ReportStep(w, 0, LocalOf(w, 0), stage, nextAt, now); Attached(v.db, LocalOf(v, 0))
  {
    hide Called, Underway, MaxRetries;
    forall call: Call, next | Attached(w.db, next)
      ensures var v := Called(w, 0, call, next); Attached(v.db, LocalOf(v, 0))
    {
      CalledAttached(w, call, next);
    }
  }

  lemma RaiseAttached(w: World, transient: bool, f: Failure, nextAt: Time, now: Time)
    requires Alone(w) && LocalOf(w, 0).PollRefused?
    ensures var v := RaiseStep(w, 0, LocalOf(w, 0), transient, f, nextAt, now); Attached(v.db, LocalOf(v, 0))
  {
    hide Called, Underway, MaxRetries;
    forall call: Call, next | Attached(w.db, next)
      ensures var v := Called(w, 0, call, next); Attached(v.db, LocalOf(v, 0))
    {
      CalledAttached(w, call, next);
    }
  }

  lemma SharedAttached(w: World, s: Step)
    requires Alone(w) && (s.Service? || s.Housekeep?)
    ensures Alone(Next(w, s))
  {
    hide Perform, Apply, Underway, Housekeeping;
    var l := LocalOf(w, 0);
    if !l.Idle? && Underway(w.db, l.k) {
      if s.Housekeep? {
        CallStays(w.db, s.call, l.k);
      } else if ServiceOp(s.op) {
        OpStays(w.db, s.op, l.k);
      }
    }
  }

  lemma ClaimRunAttached(w: World, s: Step)
    requires Alone(w) && Solo(s) && s.ClaimRun?
    ensures Alone(Next(w, s))
  {
    hide Apply, Underway, Attached, ClaimFor, HeldFor;
    if LocalOf(w, 0).Idle?
      && (s.purpose.ForFinalize? ==>
            s.purpose.state.Running? || s.purpose.state.Queued? || s.purpose.state.Succeeded?) {
      if Apply(w.db, ClaimFor(s.k, s.purpose, s.now, s.lease)).1.Yes? {
        ClaimedAttached(w.db, s.k, s.purpose, s.now, s.lease);
      }
      IdleAttached(Apply(w.db, ClaimFor(s.k, s.purpose, s.now, s.lease)).0);
    }
  }

  lemma IdleAttached(db: Db)
    ensures Attached(db, Idle)
  {
  }

  /** A poll that ends at once leaves an outcome of the attempt it polled. */
  lemma PollAttached(w: World, s: Step)
    requires Alone(w) && Solo(s) && LocalOf(w, 0).Polling? && (s.PollLive? || s.PollSucceeds? || s.PollCanceled?)
    ensures Alone(Next(w, s))
  {
    hide Underway, Called;
    KeysAlone(w, s);
    forall call: Call, next | Attached(w.db, next)
      ensures var v := Called(w, 0, call, next); Attached(v.db, LocalOf(v, 0))
    {
      CalledAttached(w, call, next);
    }
  }

  lemma KeysAlone(w: World, s: Step)
    requires Alone(w) && Solo(s)
    ensures Next(w, s).runners.Keys <= {0}
  {
    hide Apply, KeyText, Budget, ProvenanceOk, PaidWindow, Transition, MaxRetries, LocalOf, Perform, ClaimFor, HeldFor,
      Attached;
  }

  lemma StepAlone(w: World, s: Step)
    requires Alone(w) && Solo(s)
    ensures Alone(Next(w, s))
  {
    hide Apply, KeyText, Budget, ProvenanceOk, PaidWindow, Transition, MaxRetries, FinalizeStep, ReportStep, RaiseStep,
      Underway, ServiceOp, Housekeeping, Perform, ClaimFor, HeldFor;
    if s.Service? || s.Housekeep? {
      SharedAttached(w, s);
    } else {
      KeysAlone(w, s);
      var l := LocalOf(w, 0);
      if s.Finalize? && l.Finalizing? {
        FinalizeAttached(w, s.now, s.intact);
      } else if s.RecordReport? && l.PollCounted? {
        ReportAttached(w, s.stage, s.nextAt, s.now);
      } else if s.RecordRaise? && l.PollRefused? {
        RaiseAttached(w, s.transient, s.failure, s.nextAt, s.now);
      } else if s.ClaimRun? {
        ClaimRunAttached(w, s);
      } else if l.Polling? && (s.PollLive? || s.PollSucceeds? || s.PollCanceled?) {
        PollAttached(w, s);
      }
    }
  }

  /** A runner that works alone is guarded at every step. */
  lemma AloneIsGuarded(w: World, s: Step)
    requires Alone(w) && Solo(s)
    ensures Guarded(w, s)
  {
  }

  lemma {:induction false} SoloIsGuarded(steps: seq<Step>)
    requires forall i :: 0 <= i < |steps| ==> Solo(steps[i])
    ensures AllGuarded(steps) && Alone(RunAll(START, steps))
    decreases |steps|
  {
    hide Next, Guarded, Alone;
    if steps == [] {
      assert Alone(START) by { StartAlone(); }
    } else {
      var n := |steps| - 1;
      SoloIsGuarded(steps[..n]);
      AloneIsGuarded(RunAll(START, steps[..n]), steps[n]);
      StepAlone(RunAll(START, steps[..n]), steps[n]);
    }
  }

  lemma StartAlone()
    ensures Alone(START)
  {
  }

  /** Retry accounting in every state that one runner, the worker API and crashes can reach:
      submission and cancel failures stay within the plan's limit, a poll stage passes it by at most one
      and then only because the current attempt ended final, and the attempts already used up never
      outnumber the charged poll failures. */
  lemma RetryBudgetsHold(steps: seq<Step>, job: JobKey, s: RetryStage)
    requires forall i :: 0 <= i < |steps| ==> Solo(steps[i])
    ensures var db := RunAll(START, steps).db;
      job in db.jobs ==>
        && (!s.Poll? ==> Budget(db, job, s) <= db.jobs[job].maxRetries)
        && Budget(db, job, s) <= db.jobs[job].maxRetries + 1
        && (Budget(db, job, s) == db.jobs[job].maxRetries + 1 ==> EndedFinal(db, job))
        && db.jobs[job].attempt - 1 <= PollTotal(db, job)
  {
    hide Next, Alone;
    SoloIsGuarded(steps);
    BudgetsHold(steps, job, s);
  }
}
