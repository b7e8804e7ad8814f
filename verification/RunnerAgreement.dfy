/**
 Runner and provider agree under crashes, for any number of runners: an accepted run row always
 names the provider's entry for its own key, inside the paid approval's window.
 */
module RunnerAgreement {
  import opened Texts
  import opened RunnerTables
  import opened RunnerFencing
  import opened JobService
  import opened RunnerProtocol

  // ---- The invariant ------------------------------------------------------------------------------------------------

  ghost predicate Stored(provider: map<string, Entry>, key: string, runId: string, acceptedAt: Time) {
    key in provider && provider[key].runId == runId && provider[key].acceptedAt == acceptedAt
  }

  /** An accepted row names the provider's entry for its key, and its times lie in the window. */
  ghost predicate RowAgrees(db: Db, provider: map<string, Entry>, k: RunKey)
    requires k in db.runs
  {
    var r := db.runs[k];
    r.ext.Some? ==>
      && Stored(provider, KeyText(k), r.ext.value.runId, r.ext.value.acceptedAt)
      && ProvenanceOk(PaidWindow(db, k.job), r.submittedAt, r.ext.value.acceptedAt, r.ext.value.observedAt)
  }

  /** What a runner still knows for certain, however long ago it read it. */
  ghost predicate Remembers(db: Db, provider: map<string, Entry>, l: Local) {
    && (l.Launching? || l.LookingUp? || l.Received? ==> l.k in db.runs && db.runs[l.k].submittedAt == l.row.submittedAt)
    && (l.Received? ==> l.ext.key == KeyText(l.k) && Stored(provider, l.ext.key, l.ext.runId, l.ext.acceptedAt))
  }

  ghost predicate Agreed(w: World) {
    && (forall k :: k in w.db.runs ==> RowAgrees(w.db, w.provider, k))
    && (forall r :: r in w.runners ==> Remembers(w.db, w.provider, w.runners[r]))
    && (forall key :: key in w.provider ==> exists k :: k in w.db.runs && KeyText(k) == key)
    && (forall a, b :: a in w.provider && b in w.provider && w.provider[a].runId == w.provider[b].runId ==> a == b)
  }

  // ---- What every step keeps ----------------------------------------------------------------------------------------

  ghost predicate DbGrows(db: Db, d: Db) {
    && (forall k :: k in db.runs ==>
          k in d.runs && d.runs[k].submittedAt == db.runs[k].submittedAt
            && (db.runs[k].ext.Some? ==> d.runs[k].ext == db.runs[k].ext))
    && (forall j :: j in db.jobs && db.jobs[j].approval.Some? ==>
          j in d.jobs && d.jobs[j].approval == db.jobs[j].approval)
  }

  /** No row gained an acceptance. */
  ghost predicate NoNewExt(db: Db, d: Db) {
    forall k :: k in d.runs && d.runs[k].ext.Some? ==> k in db.runs && d.runs[k].ext == db.runs[k].ext
  }

  lemma PerformGrows(db: Db, op: DbOp)
    ensures DbGrows(db, Perform(db, op).0)
  {
    hide Apply, Transition, Plan, Approve, BindManifest, StatusMayMove;
    var d := Perform(db, op).0;
    forall k | k in db.runs
      ensures
        && k in d.runs && d.runs[k].submittedAt == db.runs[k].submittedAt
        && (db.runs[k].ext.Some? ==> d.runs[k].ext == db.runs[k].ext)
    {
      if op.OpCall? {
        LifecycleForward(db, op.call, k);
      } else {
        ServiceKeepsRuns(db, op);
      }
    }
    forall j | j in db.jobs && db.jobs[j].approval.Some?
      ensures j in d.jobs && d.jobs[j].approval == db.jobs[j].approval
    {
      hide Perform;
      JobsForward(db, op, j);
    }
  }

  predicate Records(op: DbOp) {
    op.OpCall? && (op.call.RecordAcceptance? || op.call.RecordLookupAcceptance?)
  }

  lemma PerformNoNewExt(db: Db, op: DbOp)
    requires !Records(op)
    ensures NoNewExt(db, Perform(db, op).0)
  {
    hide Apply, UpdateOk, Matches, Transition, Plan, Approve, BindManifest;
    var d := Perform(db, op).0;
    if !op.OpCall? {
      ServiceKeepsRuns(db, op);
    } else {
      forall k | k in d.runs && d.runs[k].ext.Some? ensures k in db.runs && d.runs[k].ext == db.runs[k].ext {
        if k in db.runs {
          RowAfter(db, op.call, k);
        } else {
          RowInserted(db, op.call, k);
        }
      }
    }
  }

  ghost predicate ProviderGrows(p: map<string, Entry>, q: map<string, Entry>) {
    forall key :: key in p ==> Stored(q, key, p[key].runId, p[key].acceptedAt)
  }

  /** Agreement across a step that grows the tables without a new acceptance. */
  lemma AgreementKept(w: World, v: World, r: nat, l: Local)
    requires Agreed(w) && DbGrows(w.db, v.db) && NoNewExt(w.db, v.db)
    requires v.provider == w.provider && v.runners == w.runners[r := l] && Remembers(v.db, v.provider, l)
    ensures Agreed(v)
  {
    forall k | k in v.db.runs ensures RowAgrees(v.db, v.provider, k) {
      if v.db.runs[k].ext.Some? {
        assert RowAgrees(w.db, w.provider, k);
      }
    }
    forall q | q in v.runners ensures Remembers(v.db, v.provider, v.runners[q]) {
      if q != r {
        assert Remembers(w.db, w.provider, w.runners[q]);
      }
    }
    forall key | key in v.provider ensures exists k :: k in v.db.runs && KeyText(k) == key {
      var k :| k in w.db.runs && KeyText(k) == key;
      assert k in v.db.runs;
    }
  }

  lemma SameDb(db: Db)
    ensures DbGrows(db, db) && NoNewExt(db, db)
  {
  }

  /** Tables change by an operation that records no acceptance, and one runner moves on. */
  lemma OpAgrees(w: World, r: nat, op: DbOp, l: Local)
    requires Agreed(w) && !Records(op)
    requires Remembers(Perform(w.db, op).0, w.provider, l)
    ensures Agreed(At(w, Perform(w.db, op).0, r, l))
  {
    hide Agreed, DbGrows, NoNewExt, Perform, Remembers;
    PerformGrows(w.db, op);
    PerformNoNewExt(w.db, op);
    AgreementKept(w, At(w, Perform(w.db, op).0, r, l), r, l);
  }

  lemma LocalAgrees(w: World, r: nat, l: Local)
    requires Agreed(w) && Remembers(w.db, w.provider, l)
    ensures Agreed(At(w, w.db, r, l))
  {
    hide Agreed, DbGrows, NoNewExt, Remembers;
    SameDb(w.db);
    AgreementKept(w, At(w, w.db, r, l), r, l);
  }

  // ---- The step that records an acceptance --------------------------------------------------------------------------

  /** A row that gains an acceptance gains exactly the one the call carries. */
  lemma RecordedRow(db: Db, call: Call, k: RunKey)
    requires Records(OpCall(call)) && k in Apply(db, call).0.runs
    ensures k in db.runs
    ensures Apply(db, call).0.runs[k].ext == db.runs[k].ext
            || (k == call.k && db.runs[k].ext.None? && Apply(db, call).0.runs[k].ext == Some(call.ext))
  {
    hide Apply, UpdateOk, CanceledDispatch;
    if k in db.runs {
      RowAfter(db, call, k);
    } else {
      RowInserted(db, call, k);
    }
  }

  lemma RecordAgrees(w: World, r: nat, call: Call)
    requires Agreed(w) && Records(OpCall(call))
    requires Stored(w.provider, KeyText(call.k), call.ext.runId, call.ext.acceptedAt)
    requires call.k in w.db.runs
    requires ProvenanceOk(PaidWindow(w.db, call.k.job), w.db.runs[call.k].submittedAt, call.ext.acceptedAt,
                          call.ext.observedAt)
    ensures Agreed(At(w, Apply(w.db, call).0, r, Idle))
  {
    hide Apply, Records, PaidWindow;
    var d := Apply(w.db, call).0;
    PerformGrows(w.db, OpCall(call));
    assert DbGrows(w.db, d);
    forall k | k in d.runs ensures RowAgrees(d, w.provider, k) {
      RecordedRow(w.db, call, k);
      assert RowAgrees(w.db, w.provider, k);
      WindowKept(w.db, d, k.job);
    }
    forall q | q in w.runners ensures Remembers(d, w.provider, w.runners[q]) {
      assert Remembers(w.db, w.provider, w.runners[q]);
    }
    forall key | key in w.provider ensures exists k :: k in d.runs && KeyText(k) == key {
      var k :| k in w.db.runs && KeyText(k) == key;
      assert k in d.runs;
    }
  }

  lemma WindowKept(db: Db, d: Db, job: JobKey)
    requires DbGrows(db, d)
    ensures PaidWindow(db, job).Some? ==> PaidWindow(d, job) == PaidWindow(db, job)
  {
  }

  // ---- Every step, every run ----------------------------------------------------------------------------------------

  /** The provider's table changes: new or flagged entries, nothing forgotten, ids unique. */
  lemma ProviderAgrees(w: World, r: nat, provider: map<string, Entry>, l: Local)
    requires Agreed(w) && ProviderGrows(w.provider, provider) && Remembers(w.db, provider, l)
    requires forall key :: key in provider ==> exists k :: k in w.db.runs && KeyText(k) == key
    requires forall a, b :: a in provider && b in provider && provider[a].runId == provider[b].runId ==> a == b
    ensures Agreed(At(w.(provider := provider), w.db, r, l))
  {
    hide KeyText, PaidWindow, ProvenanceOk;
    forall k | k in w.db.runs ensures RowAgrees(w.db, provider, k) {
      assert RowAgrees(w.db, w.provider, k);
    }
    forall q | q in w.runners ensures Remembers(w.db, provider, w.runners[q]) {
      assert Remembers(w.db, w.provider, w.runners[q]);
    }
  }

  lemma SubmitAgrees(w: World, r: nat, acceptedAt: Time, runId: string)
    requires Agreed(w) && LocalOf(w, r).Launching?
    ensures Agreed(SubmitStep(w, r, LocalOf(w, r), acceptedAt, runId))
  {
    hide KeyText, PaidWindow, Agreed;
    var l := LocalOf(w, r);
    var key := KeyText(l.k);
    LocalRemembered(w, r);
    if key in w.provider {
      LocalAgrees(w, r, Received(l.k, l.token, l.row, ToRun(key, w.provider[key]), false));
    } else if SubmitStep(w, r, l, acceptedAt, runId) != w {
      var e := Entry(runId, acceptedAt, false);
      NewEntry(w, key, e, l.k);
      ProviderAgrees(w, r, w.provider[key := e], Received(l.k, l.token, l.row, ToRun(key, e), false));
    }
  }

  lemma NewEntry(w: World, key: string, e: Entry, k: RunKey)
    requires Agreed(w) && key !in w.provider && KeyText(k) == key && k in w.db.runs
    requires forall other :: other in w.provider ==> w.provider[other].runId != e.runId
    ensures var p := w.provider[key := e];
      && ProviderGrows(w.provider, p)
      && (forall key :: key in p ==> exists k :: k in w.db.runs && KeyText(k) == key)
      && (forall a, b :: a in p && b in p && p[a].runId == p[b].runId ==> a == b)
  {
    hide KeyText;
  }

  lemma LocalRemembered(w: World, r: nat)
    requires Agreed(w)
    ensures Remembers(w.db, w.provider, LocalOf(w, r))
  {
  }

  lemma LookupAgrees(w: World, r: nat)
    requires Agreed(w) && (LocalOf(w, r).Launching? || LocalOf(w, r).LookingUp?)
    ensures Agreed(LookupStep(w, r, LocalOf(w, r)))
  {
    hide KeyText, Agreed;
    var l := LocalOf(w, r);
    var key := KeyText(l.k);
    LocalRemembered(w, r);
    if key in w.provider {
      LocalAgrees(w, r, Received(l.k, l.token, l.row, ToRun(key, w.provider[key]), l.LookingUp?));
    }
  }

  lemma CancelAgrees(w: World, r: nat)
    requires Agreed(w) && LocalOf(w, r).CancelBegun?
    ensures Agreed(CancelStep(w, r, LocalOf(w, r)))
  {
    hide KeyText;
    var l := LocalOf(w, r);
    var key := l.row.key;
    if CancelStep(w, r, l) != w && key in w.provider {
      var p := w.provider[key := w.provider[key].(canceled := true)];
      forall key | key in p ensures exists k :: k in w.db.runs && KeyText(k) == key {
        assert key in w.provider;
      }
      ProviderAgrees(w, r, p, CancelConfirmed(l.k, l.token));
    }
  }

  lemma RecordStepAgrees(w: World, r: nat, now: Time)
    requires Agreed(w) && LocalOf(w, r).Received?
    ensures Agreed(RecordStep(w, r, LocalOf(w, r), now))
  {
    hide KeyText, Agreed, ProvenanceOk, PaidWindow, Apply;
    var l := LocalOf(w, r);
    LocalRemembered(w, r);
    if RecordStep(w, r, l, now) != w {
      var ext := Acceptance(l.ext.runId, l.ext.acceptedAt, now);
      RecordAgrees(w, r, if l.canceled then RecordLookupAcceptance(l.k, l.token, l.ext.key, EXECUTOR, ext)
                         else RecordAcceptance(l.k, l.token, l.ext.key, EXECUTOR, ext));
    }
  }

  /** A runner that remembers nothing about rows it read. */
  predicate Forgetful(l: Local) {
    !l.Launching? && !l.LookingUp? && !l.Received?
  }

  lemma CalledAgrees(w: World, r: nat, call: Call, next: Local)
    requires Agreed(w) && !Records(OpCall(call)) && Forgetful(next)
    ensures Agreed(Called(w, r, call, next))
  {
    hide Agreed, Apply;
    OpAgrees(w, r, OpCall(call), if Apply(w.db, call).1.Yes? then next else Idle);
  }

  lemma ClaimAgrees(w: World, r: nat, call: Call, next: Run -> Local)
    requires Agreed(w) && !Records(OpCall(call))
    requires forall row ::
      Forgetful(next(row)) || ((next(row).Launching? || next(row).LookingUp?) && next(row).k == call.k
                               && next(row).row == row)
    ensures Agreed(ClaimStep(w, r, call, next))
  {
    hide Agreed, Apply;
    var d := Apply(w.db, call).0;
    OpAgrees(w, r, OpCall(call), if Apply(w.db, call).1.Yes? && call.k in d.runs then next(d.runs[call.k]) else Idle);
  }

  lemma MoveAgrees(w: World, r: nat, k: RunKey, s: JobState, t: JobState, f: Failure, stage: Option<Stage>, now: Time,
                   intact: bool, next: Local)
    requires Agreed(w) && Forgetful(next)
    ensures Agreed(MoveJob(w, r, k, s, t, f, stage, now, intact, next))
  {
    hide Agreed, Transition;
    var op := OpTransition(k.job, s, t, f, t.FailedRetryable? || t.FailedFinal?, stage, now, intact);
    OpAgrees(w, r, op, if Perform(w.db, op).1.Yes? then next else Idle);
  }

  lemma DbAgrees(w: World, op: DbOp)
    requires Agreed(w) && !Records(op)
    ensures Agreed(w.(db := Perform(w.db, op).0))
  {
    hide DbGrows, NoNewExt, Perform, Agreed;
    PerformGrows(w.db, op);
    PerformNoNewExt(w.db, op);
    WorldAgrees(w, Perform(w.db, op).0);
  }

  lemma WorldAgrees(w: World, d: Db)
    requires Agreed(w) && DbGrows(w.db, d) && NoNewExt(w.db, d)
    ensures Agreed(w.(db := d))
  {
    hide KeyText;
    forall k | k in d.runs ensures RowAgrees(d, w.provider, k) {
      if d.runs[k].ext.Some? {
        assert RowAgrees(w.db, w.provider, k);
        WindowKept(w.db, d, k.job);
      }
    }
    forall key | key in w.provider ensures exists k :: k in d.runs && KeyText(k) == key {
      var k :| k in w.db.runs && KeyText(k) == key;
      assert k in d.runs;
    }
  }

  lemma FinalizeAgrees(w: World, r: nat, now: Time, intact: bool)
    requires Agreed(w) && LocalOf(w, r).Finalizing?
    ensures Agreed(FinalizeStep(w, r, LocalOf(w, r), now, intact))
  {
    hide Agreed, MoveJob, ProvenanceOk, PaidWindow;
    var l := LocalOf(w, r);
    var f := Failure(if l.row.errorCode.Some? then l.row.errorCode.value else "",
                     if l.row.errorSummary.Some? then l.row.errorSummary.value else "");
    forall s, t, stage, next | Forgetful(next) ensures Agreed(MoveJob(w, r, l.k, s, t, f, stage, now, intact, next)) {
      MoveAgrees(w, r, l.k, s, t, f, stage, now, intact, next);
    }
  }

  /** Whoever steps, in whatever order, agreement holds afterwards. */
  lemma StepAgrees(w: World, s: Step)
    requires Agreed(w)
    ensures Agreed(Next(w, s))
  {
    hide Agreed, Called, ClaimStep, MoveJob, SubmitStep, LookupStep, RecordStep, CancelStep, FinalizeStep, Perform,
      Apply, KeyText, LocalOf, MaxRetries;
    match s
    case Service(op) => if ServiceOp(op) { DbAgrees(w, op); }
    case Housekeep(call) => if Housekeeping(call) { DbAgrees(w, OpCall(call)); HousekeepIsOp(w, call); }
    case Crash(r) => LocalAgrees(w, r, Idle);
    case Claim(r, k, state, now, lease) =>
      ClaimAgrees(w, r, ClaimSubmission(k, state, KeyText(k), EXECUTOR, now, lease),
                  row => Launching(k, lease.token, row));
    case ClaimLookup(r, k, now, lease) =>
      ClaimAgrees(w, r, ClaimCanceledLookup(k, now, lease), row => LookingUp(k, lease.token, row));
    case ClaimRun(r, k, purpose, now, lease) =>
      ClaimAgrees(w, r, ClaimFor(k, purpose, now, lease), row => HeldFor(k, purpose, lease.token, row));
    case Submit(r, acceptedAt, runId) => if LocalOf(w, r).Launching? { SubmitAgrees(w, r, acceptedAt, runId); }
    case Lookup(r) => if LocalOf(w, r).Launching? || LocalOf(w, r).LookingUp? { LookupAgrees(w, r); }
    case Record(r, now) => if LocalOf(w, r).Received? { RecordStepAgrees(w, r, now); }
    case CancelRun(r) => if LocalOf(w, r).CancelBegun? { CancelAgrees(w, r); }
    case Finalize(r, now, intact) => if LocalOf(w, r).Finalizing? { FinalizeAgrees(w, r, now, intact); }
    case _ => OtherAgrees(w, s);
  }

  lemma HousekeepIsOp(w: World, call: Call)
    ensures Perform(w.db, OpCall(call)) == Apply(w.db, call)
  {
  }

  predicate PollStep(s: Step) {
    || s.PollLive? || s.PollSucceeds? || s.PollCanceled? || s.PollReports? || s.RecordReport? || s.PollRaises?
       || s.RecordRaise?
  }

  lemma OtherAgrees(w: World, s: Step)
    requires Agreed(w)
    requires PollStep(s) || s.SubmitFails? || s.RecordSubmitFails? || s.ApplyOutcome? || s.Retry? || s.Consume?
      || s.CancelFails?
             || s.RecordCancelFails? || s.RecordCanceled?
    ensures Agreed(Next(w, s))
  {
    hide Agreed, Called, MoveJob, ReportStep, RaiseStep, LocalOf, MaxRetries, Budget, Apply, Perform, SubmitStep,
      LookupStep, CancelStep, FinalizeStep, ClaimStep, RecordStep, KeyText, ServiceOp, Housekeeping, ClaimFor, HeldFor;
    var l, r := LocalOf(w, s.r), s.r;
    match s
    case SubmitFails(_) =>
      if l.Launching? {
        LocalAgrees(w, r, SubmitCounted(l.k, l.token, Budget(w.db, l.k.job, Submission)));
      }
    case RecordSubmitFails(_, nextAt, failure) =>
      if l.SubmitCounted? {
        CalledAgrees(w, r, RecordSubmitFailure(l.k, l.token, Some(nextAt), failure), Idle);
      }
    case ApplyOutcome(_, now, intact) =>
      if l.Polled? {
        MoveAgrees(w, r, l.k, Running, l.target, l.failure, l.stage, now, intact, Idle);
      }
    case Retry(_, now, intact) => if l.Requeueing? {
      MoveAgrees(w, r, l.k, FailedRetryable, Queued, Failure("", "job retry requested through Worker API"), None,
                 now, intact, Requeued(l.k, l.token)); }
    case Consume(_) => if l.Requeued? { CalledAgrees(w, r, MarkRetryConsumed(l.k, l.token), Idle); }
    case CancelFails(_) =>
      if l.CancelBegun? {
        LocalAgrees(w, r, CancelCounted(l.k, l.token, Budget(w.db, l.k.job, CancelStage)));
      }
    case RecordCancelFails(_, retryAt, failure) =>
      if l.CancelCounted? {
        CalledAgrees(w, r, RecordCancelFailure(l.k, l.token, retryAt, failure), Idle);
      }
    case RecordCanceled(_, now) =>
      if l.CancelConfirmed? {
        CalledAgrees(w, r, RecordRemoteCanceled(l.k, l.token, now), Idle);
      }
    case _ => PollAgrees(w, s);
  }

  lemma ReportAgrees(w: World, r: nat, l: Local, stage: Option<Stage>, nextAt: Time, now: Time)
    requires Agreed(w) && l.PollCounted?
    ensures Agreed(ReportStep(w, r, l, stage, nextAt, now))
  {
    hide Agreed, Called, MaxRetries;
    forall call: Call, next | call.RecordPollStatus? && Forgetful(next) ensures Agreed(Called(w, r, call, next)) {
      CalledAgrees(w, r, call, next);
    }
  }

  lemma RaiseAgrees(w: World, r: nat, l: Local, transient: bool, f: Failure, nextAt: Time, now: Time)
    requires Agreed(w) && l.PollRefused?
    ensures Agreed(RaiseStep(w, r, l, transient, f, nextAt, now))
  {
    hide Agreed, Called, MaxRetries;
    forall call: Call, next | (call.RecordPollStatus? || call.RecordPollFailure?) && Forgetful(next)
      ensures Agreed(Called(w, r, call, next))
    {
      CalledAgrees(w, r, call, next);
    }
  }

  lemma PollAgrees(w: World, s: Step)
    requires Agreed(w) && PollStep(s)
    ensures Agreed(Next(w, s))
  {
    hide Agreed, Called, MoveJob, LocalOf, MaxRetries, Budget, Apply, Perform, SubmitStep, LookupStep, CancelStep,
      FinalizeStep, ClaimStep, RecordStep, KeyText, ServiceOp, Housekeeping, ClaimFor, HeldFor, ReportStep, RaiseStep;
    var l, r := LocalOf(w, s.r), s.r;
    match s
    case PollReports(_, report) =>
      if l.Polling? {
        LocalAgrees(w, r, PollCounted(l.k, l.token, report, Budget(w.db, l.k.job, Poll(report.stage))));
      }
    case PollRaises(_) =>
      if l.Polling? {
        LocalAgrees(w, r, PollRefused(l.k, l.token, l.row, Budget(w.db, l.k.job, l.row.retryStage)));
      }
    case RecordReport(_, stage, nextAt, now) => if l.PollCounted? { ReportAgrees(w, r, l, stage, nextAt, now); }
    case RecordRaise(_, transient, failure, nextAt, now) =>
      if l.PollRefused? {
        RaiseAgrees(w, r, l, transient, failure, nextAt, now);
      }
    case PollLive(_, status, stage, retryStage, nextAt, note) => if l.Polling? {
      CalledAgrees(w, r, RecordPollStatus(l.k, l.token, status, stage, Poll(retryStage), false, Some(nextAt), None,
                                          note, None), Idle); }
    case PollSucceeds(_, stage, retryStage, now, result) => if l.Polling? {
      CalledAgrees(w, r, RecordPollStatus(l.k, l.token, XSucceeded, stage, Poll(retryStage), false, None,
                                          Some(now), None, Some(result)),
                   Polled(l.k, Succeeded, Failure("", "external execution succeeded"), stage)); }
    case PollCanceled(_, stage, retryStage, now) => if l.Polling? {
      CalledAgrees(w, r, RecordPollStatus(l.k, l.token, XCanceled, stage, Poll(retryStage), false, None, Some(now),
                                          None, None),
                   Polled(l.k, Canceled, Failure("", "external execution canceled"), stage)); }
    case _ =>
  }

  /** Over every run of any number of runners, with crashes anywhere. */
  lemma {:induction false} RunsAgree(steps: seq<Step>)
    ensures Agreed(RunAll(START, steps))
    decreases |steps|
  {
    hide Next, Agreed;
    if steps == [] {
      StartAgrees();
    } else {
      RunsAgree(steps[..|steps| - 1]);
      StepAgrees(RunAll(START, steps[..|steps| - 1]), steps[|steps| - 1]);
    }
  }

  lemma StartAgrees()
    ensures Agreed(START)
  {
  }

  // ---- One provider run per attempt ---------------------------------------------------------------------------------

  predicate NoColon(s: string) {
    forall i :: 0 <= i < |s| ==> s[i] != ':'
  }

  lemma {:induction false} ColonSplits(a: string, x: string, b: string, y: string)
    requires NoColon(a) && NoColon(b) && a + ":" + x == b + ":" + y
    ensures a == b && x == y
    decreases |a|
  {
    var s, t := a + ":" + x, b + ":" + y;
    if a == "" || b == "" {
      assert s[0] == t[0];
      assert a == b;
      assert x == s[1..] && y == t[1..];
    } else {
      assert s[0] == a[0] && t[0] == b[0];
      assert s[1..] == a[1..] + ":" + x && t[1..] == b[1..] + ":" + y;
      ColonSplits(a[1..], x, b[1..], y);
    }
  }

  /** Identifiers contain no colon, so keys of different attempts differ. */
  lemma KeysInjective(a: RunKey, b: RunKey)
    requires NoColon(a.job.company) && NoColon(a.job.job) && NoColon(b.job.company) && NoColon(b.job.job)
    requires a.attempt > 0 && b.attempt > 0 && KeyText(a) == KeyText(b)
    ensures a == b
  {
    var x, y := a.job.job + ":" + Decimal(a.attempt), b.job.job + ":" + Decimal(b.attempt);
    assert KeyText(a) == a.job.company + ":" + x && KeyText(b) == b.job.company + ":" + y;
    ColonSplits(a.job.company, x, b.job.company, y);
    ColonSplits(a.job.job, Decimal(a.attempt), b.job.job, Decimal(b.attempt));
    DigitsInjective(a.attempt, b.attempt);
  }

  /** In every reachable state: every provider run belongs to an attempt that was claimed, and an
      accepted row names exactly the provider's run for its attempt. */
  lemma OneRunPerAttempt(steps: seq<Step>, k: RunKey)
    ensures var w := RunAll(START, steps);
      && (forall key :: key in w.provider ==> exists j :: j in w.db.runs && KeyText(j) == key)
      && (k in w.db.runs && w.db.runs[k].ext.Some? ==>
            && KeyText(k) in w.provider
            && (forall key :: key in w.provider && w.provider[key].runId == w.db.runs[k].ext.value.runId ==>
                  key == KeyText(k))
            && w.provider[KeyText(k)].acceptedAt == w.db.runs[k].ext.value.acceptedAt)
  {
    hide Next, KeyText;
    RunsAgree(steps);
    var w := RunAll(START, steps);
    if k in w.db.runs {
      assert RowAgrees(w.db, w.provider, k);
    }
  }

  /** The identifiers of an attempt, as its job and company records allow them. */
  predicate Named(k: RunKey) {
    NoColon(k.job.company) && NoColon(k.job.job) && k.attempt > 0
  }

  /** The external id in the row of an attempt, and the provider's id under its key. */
  function AcceptedRun(w: World, k: RunKey): Option<string> {
    if k in w.db.runs && w.db.runs[k].ext.Some? then Some(w.db.runs[k].ext.value.runId) else None
  }

  function ProviderRun(w: World, k: RunKey): Option<string> {
    if KeyText(k) in w.provider then Some(w.provider[KeyText(k)].runId) else None
  }

  /** In every reachable state no two attempts share a provider run: two accepted rows with one
      external id are one row, and the key of a provider run tells which attempt it belongs to. */
  lemma AttemptsShareNoRun(steps: seq<Step>, a: RunKey, b: RunKey)
    requires Named(a) && Named(b)
    ensures var w := RunAll(START, steps);
      AcceptedRun(w, a).Some? && AcceptedRun(w, a) == AcceptedRun(w, b) ==> a == b
    ensures var w := RunAll(START, steps);
      ProviderRun(w, a).Some? && ProviderRun(w, a) == ProviderRun(w, b) ==> a == b
  {
    hide Next, KeyText;
    RunsAgree(steps);
    OneRunPerAttempt(steps, a);
    OneRunPerAttempt(steps, b);
    if KeyText(a) == KeyText(b) {
      KeysInjective(a, b);
    }
  }

  /** The provenance recheck before each poll, cancel and recovery passes on every row a runner wrote: the
      job was approved before the run was submitted, the run was accepted after that, before it was
      observed, and before the approval ran out. */
  lemma RecheckPasses(steps: seq<Step>, k: RunKey)
    ensures var db := RunAll(START, steps).db;
      k in db.runs && db.runs[k].ext.Some? ==>
        && ProvenanceOk(PaidWindow(db, k.job), db.runs[k].submittedAt, db.runs[k].ext.value.acceptedAt,
                        db.runs[k].ext.value.observedAt)
        && k.job in db.jobs && db.jobs[k.job].approval.Some? && db.runs[k].submittedAt.Some?
        && var w, a := db.jobs[k.job].approval.value, db.runs[k].ext.value;
           && w.approvedAt <= db.runs[k].submittedAt.value <= a.acceptedAt <= a.observedAt
           && (w.expires.Some? ==> a.acceptedAt < w.expires.value)
  {
    hide Next, KeyText;
    RunsAgree(steps);
    var w := RunAll(START, steps);
    if k in w.db.runs {
      assert RowAgrees(w.db, w.provider, k);
    }
  }
}
