/**
 The retry accounts of the tables: what each stage has been charged, how many attempts a job has
 used up, and which operations keep them in order.
 */
module RunnerBudgets {
  import opened Texts
  import opened RunnerTables
  import opened RunnerFencing
  import opened JobService

  // ---- Sums over the budget table -----------------------------------------------------------------------------------

  ghost function SumOver(m: map<(JobKey, RetryStage), nat>, keys: set<(JobKey, RetryStage)>): nat
    requires keys <= m.Keys
  {
    if keys == {} then 0 else var x :| x in keys; m[x] + SumOver(m, keys - {x})
  }

  lemma {:induction false} SumSplit(m: map<(JobKey, RetryStage), nat>, keys: set<(JobKey, RetryStage)>,
                                    y: (JobKey, RetryStage))
    requires keys <= m.Keys && y in keys
    ensures SumOver(m, keys) == m[y] + SumOver(m, keys - {y})
    decreases |keys|
  {
    var x :| x in keys && SumOver(m, keys) == m[x] + SumOver(m, keys - {x});
    if x != y {
      SumSplit(m, keys - {x}, y);
      SumSplit(m, keys - {y}, x);
      assert keys - {x} - {y} == keys - {y} - {x};
    }
  }

  lemma {:induction false} SumSame(m: map<(JobKey, RetryStage), nat>, n: map<(JobKey, RetryStage), nat>,
                                   keys: set<(JobKey, RetryStage)>)
    requires keys <= m.Keys && keys <= n.Keys && forall x :: x in keys ==> m[x] == n[x]
    ensures SumOver(m, keys) == SumOver(n, keys)
    decreases |keys|
  {
    if keys != {} {
      var x :| x in keys && SumOver(m, keys) == m[x] + SumOver(m, keys - {x});
      SumSplit(n, keys, x);
      SumSame(m, n, keys - {x});
    }
  }

  ghost function PollKeys(db: Db, job: JobKey): set<(JobKey, RetryStage)> {
    set x | x in db.budgets && x.0 == job && x.1.Poll?
  }

  /** All failures charged to the poll stages of a job. */
  ghost function PollTotal(db: Db, job: JobKey): nat {
    SumOver(db.budgets, PollKeys(db, job))
  }

  /** Charging a poll stage adds one; charging anything else adds nothing. */
  lemma ChargeAdds(db: Db, job: JobKey, s: RetryStage, other: JobKey)
    ensures PollTotal(Charged(db, job, s), other) == PollTotal(db, other) + if other == job && s.Poll? then 1 else 0
  {
    var d, y := Charged(db, job, s), (job, s);
    var keys := PollKeys(db, other);
    if other == job && s.Poll? {
      assert PollKeys(d, other) == keys + {y};
      SumSplit(d.budgets, keys + {y}, y);
      assert keys + {y} - {y} == keys - {y};
      if y in keys {
        SumSplit(db.budgets, keys, y);
      } else {
        assert keys - {y} == keys;
      }
      SumSame(db.budgets, d.budgets, keys - {y});
    } else {
      assert PollKeys(d, other) == keys;
      SumSame(db.budgets, d.budgets, keys);
    }
  }

  // ---- The invariant ------------------------------------------------------------------------------------------------

  ghost function Retried(db: Db, job: JobKey): set<RunKey> {
    set k | k in db.runs && k.job == job && db.runs[k].status == Some(XFailedRetryable)
  }

  /** Run rows belong to attempts made so far, and every attempt before the current one ended
      retryable; a retryable job's current attempt did too. */
  ghost predicate AttemptsOk(db: Db) {
    && (forall k :: k in db.runs ==> k.job in db.jobs && 1 <= k.attempt <= db.jobs[k.job].attempt)
    && (forall j, a :: j in db.jobs && 1 <= a < db.jobs[j].attempt ==>
          RunKey(j, a) in db.runs && db.runs[RunKey(j, a)].status == Some(XFailedRetryable))
    && (forall j :: j in db.jobs ==> 1 <= db.jobs[j].attempt)
    && (forall j :: j in db.jobs && db.jobs[j].state.FailedRetryable? ==>
          RunKey(j, db.jobs[j].attempt) in db.runs
            && db.runs[RunKey(j, db.jobs[j].attempt)].status == Some(XFailedRetryable))
  }

  /** The current attempt of the job ended FAILED_FINAL. */
  ghost predicate EndedFinal(db: Db, job: JobKey) {
    job in db.jobs && RunKey(job, db.jobs[job].attempt) in db.runs
    && db.runs[RunKey(job, db.jobs[job].attempt)].status == Some(XFailedFinal)
  }

  /** A budget may pass its limit by one, and only for a poll stage whose last charge was final. */
  ghost predicate WithinBudget(db: Db, job: JobKey, s: RetryStage) {
    && Budget(db, job, s) <= MaxRetries(db, job) + 1
    && (Budget(db, job, s) == MaxRetries(db, job) + 1 ==> s.Poll? && EndedFinal(db, job))
  }

  ghost predicate Accounted(db: Db) {
    && AttemptsOk(db)
    && (forall x :: x in db.budgets ==> x.0 in db.jobs)
    && (forall job, s :: (job, s) in db.budgets ==> WithinBudget(db, job, s))
    && (forall job :: job in db.jobs ==> |Retried(db, job)| <= PollTotal(db, job))
  }

  // ---- Effects of one call ------------------------------------------------------------------------------------------

  lemma FinishBudgets(db: Db, call: Call)
    ensures var out := Finish(db, call);
      if Charges(call).Some? then out.0 == Charged(db, call.k.job, Charges(call).value) && out.1.Yes?
        else out.0.budgets == db.budgets
  {
    hide OnJob, JobActive;
  }

  lemma UpdateBudgets(db: Db, call: Call)
    ensures var out := UpdateRun(db, call);
      if Charges(call).Some? && out.1.Yes?
      then out.0.budgets == Charged(db, call.k.job, Charges(call).value).budgets
      else out.1.Raised? || out.0.budgets == db.budgets
  {
    hide Matches, After, UpdateOk, Finish, Charged, JobActive, Charges;
    FinishBudgets(db, call);
    UntouchedChargesNothing(call);
    if call.k in db.runs {
      var d := db.(runs := db.runs[call.k := After(call, db.runs[call.k])]);
      FinishBudgets(d, call);
      ChargedBudgets(db, d, call);
    }
  }

  /** Only a call that matched is charged, and to its own stage. */
  lemma CallBudgets(db: Db, call: Call)
    ensures var out := Apply(db, call);
      if Charges(call).Some? && out.1.Yes?
      then out.0.budgets == Charged(db, call.k.job, Charges(call).value).budgets
      else out.0.budgets == db.budgets
  {
    hide Matches, After, UpdateOk, Inserts, RowOk, UpdateRun, Charged, JobActive, Charges;
    var db1 := WithInsert(db, call);
    if db1.Some? {
      UpdateBudgets(db1.value, call);
      ChargedBudgets(db, db1.value, call);
    }
  }

  lemma UntouchedChargesNothing(call: Call)
    ensures !TouchesRun(call) ==> Charges(call).None?
  {
  }

  lemma ChargedBudgets(db: Db, d: Db, call: Call)
    requires d.budgets == db.budgets
    ensures Charges(call).Some? ==>
      Charged(d, call.k.job, Charges(call).value).budgets == Charged(db, call.k.job, Charges(call).value).budgets
  {
  }

  /** Rows become FAILED_RETRYABLE only through a poll that says so, on an open row. */
  lemma CallRetryable(db: Db, call: Call, k: RunKey)
    requires k in Apply(db, call).0.runs && Apply(db, call).0.runs[k].status == Some(XFailedRetryable)
    requires k in db.runs ==> db.runs[k].status != Some(XFailedRetryable)
    ensures call.RecordPollStatus? && call.status.XFailedRetryable? && call.k == k && k in db.runs && Open(db.runs[k])
  {
    hide Apply, UpdateOk, After, Matches, Inserts, RowOk;
    if k in db.runs {
      RowAfter(db, call, k);
      AfterRetryable(db, call, db.runs[k]);
    } else {
      RowInserted(db, call, k);
      InsertedOpen(db, call);
      AfterRetryable(db.(runs := db.runs[k := Inserts(db, call).value]), call, Inserts(db, call).value);
    }
  }

  lemma AfterRetryable(db: Db, call: Call, r: Run)
    requires
      && r.status != Some(XFailedRetryable) && After(call, r).status == Some(XFailedRetryable) && Matches(db, call, r)
    ensures call.RecordPollStatus? && call.status.XFailedRetryable? && Open(r)
  {
    hide JobIs, JobActive, SubmissionJob, CanceledDispatch;
  }

  lemma InsertedOpen(db: Db, call: Call)
    requires Inserts(db, call).Some?
    ensures Inserts(db, call).value.status.None?
  {
  }

  /** A new row belongs to the job's current attempt. */
  lemma CallInserts(db: Db, call: Call, k: RunKey)
    requires k !in db.runs && k in Apply(db, call).0.runs
    ensures k.job in db.jobs && db.jobs[k.job].attempt == k.attempt && 1 <= k.attempt
  {
    hide After, UpdateOk, Matches;
    RowInserted(db, call, k);
  }

  /** The answer to a poll status call, and what it leaves in the row. */
  lemma PollStatusRow(db: Db, call: Call)
    requires call.RecordPollStatus? && Apply(db, call).1.Yes?
    ensures call.k in db.runs && Open(db.runs[call.k])
    ensures call.k in Apply(db, call).0.runs && Apply(db, call).0.runs[call.k].status == Some(call.status)
    ensures Apply(db, call).0.jobs == db.jobs
  {
    hide UpdateOk;
  }

  // ---- Calls keep the accounts --------------------------------------------------------------------------------------

  lemma CallJobs(db: Db, call: Call, j: JobKey)
    ensures var d := Apply(db, call).0;
      && (j in d.jobs <==> j in db.jobs)
      && (j in db.jobs ==> d.jobs[j].attempt == db.jobs[j].attempt && d.jobs[j].maxRetries == db.jobs[j].maxRetries)
      && (j in db.jobs && d.jobs[j].state != db.jobs[j].state ==>
            db.jobs[j].state.Queued? && d.jobs[j].state.Running? && call.ClaimSubmission?)
  {
    hide Apply;
    CallOnJobs(db, call);
  }

  lemma CallAttempts(db: Db, call: Call)
    requires AttemptsOk(db)
    ensures AttemptsOk(Apply(db, call).0)
  {
    hide Apply, StatusMayMove;
    var d := Apply(db, call).0;
    forall k | k in d.runs ensures k.job in d.jobs && 1 <= k.attempt <= d.jobs[k.job].attempt {
      CallJobs(db, call, k.job);
      if k !in db.runs {
        CallInserts(db, call, k);
      }
    }
    forall j, a | j in d.jobs && 1 <= a < d.jobs[j].attempt
      ensures RunKey(j, a) in d.runs && d.runs[RunKey(j, a)].status == Some(XFailedRetryable)
    {
      CallJobs(db, call, j);
      StatusStays(db, call, RunKey(j, a));
    }
    forall j | j in d.jobs && d.jobs[j].state.FailedRetryable?
      ensures
        && RunKey(j, d.jobs[j].attempt) in d.runs
        && d.runs[RunKey(j, d.jobs[j].attempt)].status == Some(XFailedRetryable)
    {
      CallJobs(db, call, j);
      StatusStays(db, call, RunKey(j, d.jobs[j].attempt));
    }
    forall j | j in d.jobs ensures 1 <= d.jobs[j].attempt {
      CallJobs(db, call, j);
    }
  }

  /** A terminal status never changes. */
  lemma StatusStays(db: Db, call: Call, k: RunKey)
    requires k in db.runs && db.runs[k].status.Some? && Terminal(db.runs[k].status.value)
    ensures k in Apply(db, call).0.runs && Apply(db, call).0.runs[k].status == db.runs[k].status
  {
    hide Apply;
    LifecycleForward(db, call, k);
  }

  lemma FinalStays(db: Db, call: Call, job: JobKey)
    requires EndedFinal(db, job)
    ensures EndedFinal(Apply(db, call).0, job)
  {
    hide Apply;
    CallJobs(db, call, job);
    StatusStays(db, call, RunKey(job, db.jobs[job].attempt));
  }

  /** The retryable rows of a job after a call: the same, or one more. */
  lemma RetriedAfter(db: Db, call: Call, job: JobKey)
    ensures var more := call.RecordPollStatus? && call.status.XFailedRetryable? && call.k.job == job
      && Apply(db, call).1.Yes?;
            |Retried(Apply(db, call).0, job)| <= |Retried(db, job)| + if more then 1 else 0
  {
    hide Apply;
    var d := Apply(db, call).0;
    var before, after := Retried(db, job), Retried(d, job);
    if forall k :: k in after ==> k in before {
      SubsetSize(after, before);
    } else {
      forall k | k in after && k !in before ensures k == call.k && k in db.runs && call.RecordPollStatus?
        && call.status.XFailedRetryable? {
        CallRetryable(db, call, k);
      }
      var k :| k in after && k !in before;
      assert d.runs[k].status != db.runs[k].status;
      PollAnswered(db, call);
      SubsetSize(after, before + {call.k});
    }
  }

  lemma PollAnswered(db: Db, call: Call)
    requires call.RecordPollStatus? && call.k in db.runs && Apply(db, call).0.runs != db.runs
    ensures Apply(db, call).1.Yes?
  {
    hide UpdateOk, Matches, After;
  }

  lemma {:induction false} SubsetSize<T>(a: set<T>, b: set<T>)
    requires a <= b
    ensures |a| <= |b|
    decreases |a|
  {
    if a != {} {
      var x :| x in a;
      SubsetSize(a - {x}, b - {x});
    }
  }

  /** A call that charges nothing and marks nothing retryable. */
  lemma UnchargedCall(db: Db, call: Call)
    requires Accounted(db)
    requires Charges(call).None? && !(call.RecordPollStatus? && call.status.XFailedRetryable?)
    ensures Accounted(Apply(db, call).0)
  {
    hide Apply, AttemptsOk, EndedFinal, Retried, PollTotal;
    var d := Apply(db, call).0;
    CallAttempts(db, call);
    CallBudgets(db, call);
    forall job, s | (job, s) in d.budgets ensures WithinBudget(d, job, s) {
      CallJobs(db, call, job);
      assert WithinBudget(db, job, s);
      if EndedFinal(db, job) {
        FinalStays(db, call, job);
      }
    }
    forall job | job in d.jobs ensures |Retried(d, job)| <= PollTotal(d, job) {
      CallJobs(db, call, job);
      RetriedAfter(db, call, job);
      TotalOf(db, d, job);
    }
    forall x | x in d.budgets ensures x.0 in d.jobs {
      CallJobs(db, call, x.0);
    }
  }

  lemma TotalOf(db: Db, d: Db, job: JobKey)
    requires d.budgets == db.budgets
    ensures PollTotal(d, job) == PollTotal(db, job)
  {
    assert PollKeys(d, job) == PollKeys(db, job);
  }

  /** A charged call whose budget allowed it, or a final report that overdraws its poll stage. */
  lemma ChargedCall(db: Db, call: Call)
    requires Accounted(db) && Charges(call).Some? && call.k.job in db.jobs
    requires call.RecordPollStatus? && call.status.XFailedRetryable? ==> Charges(call).value.Poll?
    requires Budget(db, call.k.job, Charges(call).value) + 1 <= MaxRetries(db, call.k.job)
             || (call.RecordPollStatus? && call.status.XFailedFinal? && Charges(call).value.Poll?)
    ensures Accounted(Apply(db, call).0)
  {
    hide Apply, AttemptsOk, EndedFinal, Retried, PollTotal, Charges;
    var d, s0 := Apply(db, call).0, Charges(call).value;
    var c := Charged(db, call.k.job, s0);
    CallAttempts(db, call);
    CallBudgets(db, call);
    forall job, s | (job, s) in d.budgets ensures WithinBudget(d, job, s) {
      CallJobs(db, call, job);
      if (job, s) in db.budgets {
        assert WithinBudget(db, job, s);
      }
      if EndedFinal(db, job) {
        FinalStays(db, call, job);
      }
      if job == call.k.job && s == s0 && Apply(db, call).1.Yes? && Budget(db, job, s) + 1 > MaxRetries(db, job) {
        OverdrawnIsFinal(db, call);
      }
    }
    forall job | job in d.jobs ensures |Retried(d, job)| <= PollTotal(d, job) {
      CallJobs(db, call, job);
      RetriedAfter(db, call, job);
      ChargeAdds(db, call.k.job, s0, job);
      if Apply(db, call).1.Yes? {
        TotalOf(c, d, job);
      } else {
        TotalOf(db, d, job);
      }
    }
    forall x | x in d.budgets ensures x.0 in d.jobs {
      CallJobs(db, call, x.0);
    }
  }

  /** The report that overdraws a budget ends the current attempt for good; until then the budget
      was at its limit, not over it. */
  lemma OverdrawnIsFinal(db: Db, call: Call)
    requires
      && Accounted(db) && call.RecordPollStatus? && call.status.XFailedFinal? && Charges(call).Some?
      && Apply(db, call).1.Yes?
    ensures EndedFinal(Apply(db, call).0, call.k.job)
    ensures Budget(db, call.k.job, Charges(call).value) <= MaxRetries(db, call.k.job)
  {
    hide Apply, Charges, Retried, PollTotal;
    PollStatusRow(db, call);
    var job, s := call.k.job, Charges(call).value;
    assert call.k == RunKey(job, call.k.attempt);
    if (job, s) in db.budgets {
      assert WithinBudget(db, job, s);
    }
  }

  // ---- Job operations keep the accounts -----------------------------------------------------------------------------

  /** A move that does not retry and does not claim retryability without the row to show for it. */
  lemma MoveAttempts(db: Db, op: DbOp)
    requires AttemptsOk(db) && op.OpTransition?
    requires op.target.FailedRetryable? && op.key in db.jobs ==>
      var k := RunKey(op.key, db.jobs[op.key].attempt); k in db.runs && db.runs[k].status == Some(XFailedRetryable)
    ensures AttemptsOk(Perform(db, op).0)
  {
    hide MayMove, CreatorBusy;
    var d := Perform(db, op).0;
    if d != db {
      forall j, a | j in d.jobs && 1 <= a < d.jobs[j].attempt
        ensures RunKey(j, a) in d.runs && d.runs[RunKey(j, a)].status == Some(XFailedRetryable)
      {
        if a < db.jobs[j].attempt {
          assert db.runs[RunKey(j, a)].status == Some(XFailedRetryable);
        }
      }
    }
  }

  lemma OtherAttempts(db: Db, op: DbOp)
    requires AttemptsOk(db) && !op.OpCall? && !op.OpTransition?
    ensures AttemptsOk(Perform(db, op).0)
  {
    hide AttemptsOk, Perform;
    var d := Perform(db, op).0;
    ServiceKeepsRuns(db, op);
    forall j | j in d.jobs ensures SameAttempt(db, d, j) {
      OtherJob(db, op, j);
    }
    forall j | j in db.jobs ensures j in d.jobs {
      JobsForward(db, op, j);
    }
    AttemptsSame(db, d);
  }

  /** The attempt of `j` is what it was, or its first. */
  ghost predicate SameAttempt(db: Db, d: Db, j: JobKey)
    requires j in d.jobs
  {
    if j in db.jobs then d.jobs[j].attempt == db.jobs[j].attempt
      && (d.jobs[j].state.FailedRetryable? ==> db.jobs[j].state.FailedRetryable?)
    else d.jobs[j].attempt == 1 && !d.jobs[j].state.FailedRetryable?
  }

  lemma OtherJob(db: Db, op: DbOp, j: JobKey)
    requires !op.OpCall? && !op.OpTransition? && j in Perform(db, op).0.jobs
    ensures SameAttempt(db, Perform(db, op).0, j)
  {
    hide CreatorBusy;
  }

  lemma AttemptsSame(db: Db, d: Db)
    requires AttemptsOk(db) && d.runs == db.runs && (forall j :: j in db.jobs ==> j in d.jobs)
    requires forall j :: j in d.jobs ==> SameAttempt(db, d, j)
    ensures AttemptsOk(d)
  {
  }

  /** What a job operation does to a job that was already there. */
  lemma JobAfter(db: Db, op: DbOp, j: JobKey)
    requires !op.OpCall? && j in db.jobs
    ensures var d := Perform(db, op).0;
      && j in d.jobs && d.jobs[j].maxRetries == db.jobs[j].maxRetries
      && d.jobs[j].attempt == db.jobs[j].attempt + (if d.jobs[j].attempt == db.jobs[j].attempt then 0 else 1)
      && (d.jobs[j].attempt != db.jobs[j].attempt ==> db.jobs[j].state.FailedRetryable?)
  {
    hide MayMove, CreatorBusy;
  }

  lemma JobOpAccounts(db: Db, op: DbOp)
    requires Accounted(db) && !op.OpCall? && AttemptsOk(Perform(db, op).0)
    ensures Accounted(Perform(db, op).0)
  {
    hide Perform, Retried, PollTotal, AttemptsOk;
    var d := Perform(db, op).0;
    ServiceKeepsRuns(db, op);
    forall job, s | (job, s) in d.budgets ensures WithinBudget(d, job, s) {
      assert WithinBudget(db, job, s);
      JobAfter(db, op, job);
      if EndedFinal(db, job) {
        FinalNotRetried(db, job);
      }
    }
    forall job | job in d.jobs ensures |Retried(d, job)| <= PollTotal(d, job) {
      TotalOf(db, d, job);
      SameRetried(db, d, job);
      if job !in db.jobs {
        NoRows(db, job);
      }
    }
    forall x | x in d.budgets ensures x.0 in d.jobs {
      JobAfter(db, op, x.0);
    }
  }

  lemma SameRetried(db: Db, d: Db, job: JobKey)
    requires d.runs == db.runs
    ensures Retried(d, job) == Retried(db, job)
  {
  }

  lemma NoRows(db: Db, job: JobKey)
    requires AttemptsOk(db) && job !in db.jobs
    ensures |Retried(db, job)| == 0
  {
    assert Retried(db, job) == {};
  }

  lemma FinalNotRetried(db: Db, job: JobKey)
    requires AttemptsOk(db) && EndedFinal(db, job)
    ensures !db.jobs[job].state.FailedRetryable?
  {
  }

  /** A job operation that does not declare a job retryable. */
  lemma ServiceAccounts(db: Db, op: DbOp)
    requires Accounted(db) && !op.OpCall? && (op.OpTransition? ==> !op.target.FailedRetryable?)
    ensures Accounted(Perform(db, op).0)
  {
    hide Accounted, Perform, AttemptsOk;
    AttemptsOf(db);
    if op.OpTransition? {
      MoveAttempts(db, op);
    } else {
      OtherAttempts(db, op);
    }
    JobOpAccounts(db, op);
  }

  lemma AttemptsOf(db: Db)
    requires Accounted(db)
    ensures AttemptsOk(db)
  {
  }

  /** The current attempt of the job ended retryable. */
  ghost predicate CurrentRetryable(db: Db, job: JobKey) {
    job in db.jobs && RunKey(job, db.jobs[job].attempt) in db.runs
    && db.runs[RunKey(job, db.jobs[job].attempt)].status == Some(XFailedRetryable)
  }

  /** Exactly when moving a job keeps the accounts: a move to FAILED_RETRYABLE needs a current attempt
      that ended retryable, any other move needs nothing. */
  lemma MoveAccountsExactly(db: Db, op: DbOp)
    requires Accounted(db) && op.OpTransition? && Perform(db, op).1.Yes? && Perform(db, op).0 != db
    ensures Accounted(Perform(db, op).0) <==> (op.target.FailedRetryable? ==> CurrentRetryable(db, op.key))
  {
    if op.target.FailedRetryable? ==> CurrentRetryable(db, op.key) {
      hide Accounted, Perform, AttemptsOk;
      AttemptsOf(db);
      MoveAttempts(db, op);
      JobOpAccounts(db, op);
    } else {
      Unbacked(db, op);
      hide Perform, Retried, PollTotal;
    }
  }

  lemma Unbacked(db: Db, op: DbOp)
    requires op.OpTransition? && Perform(db, op).1.Yes? && Perform(db, op).0 != db
    requires op.target.FailedRetryable? && !CurrentRetryable(db, op.key)
    ensures !AttemptsOk(Perform(db, op).0)
  {
    hide MayMove, CreatorBusy;
    var d := Perform(db, op).0;
    assert d.jobs[op.key].state.FailedRetryable? && d.jobs[op.key].attempt == db.jobs[op.key].attempt
      && d.runs == db.runs;
  }

  /** Every attempt before the current one is a retryable row of its own. */
  lemma {:induction false} AttemptsCounted(db: Db, job: JobKey, n: nat)
    requires AttemptsOk(db) && job in db.jobs && n < db.jobs[job].attempt
    ensures n <= |set k | k in Retried(db, job) && k.attempt <= n|
    decreases n
  {
    if n > 0 {
      AttemptsCounted(db, job, n - 1);
      var fewer := set k | k in Retried(db, job) && k.attempt <= n - 1;
      var more := set k | k in Retried(db, job) && k.attempt <= n;
      assert RunKey(job, n) in db.runs;
      SubsetSize(fewer + {RunKey(job, n)}, more);
    }
  }

  /** What the accounts say of one job and stage. */
  ghost predicate InBudget(db: Db, job: JobKey, s: RetryStage) {
    job in db.jobs ==>
      && (!s.Poll? ==> Budget(db, job, s) <= db.jobs[job].maxRetries)
      && Budget(db, job, s) <= db.jobs[job].maxRetries + 1
      && (Budget(db, job, s) == db.jobs[job].maxRetries + 1 ==> EndedFinal(db, job))
      && db.jobs[job].attempt - 1 <= PollTotal(db, job)
  }

  lemma AccountedInBudget(db: Db, job: JobKey, s: RetryStage)
    requires Accounted(db)
    ensures InBudget(db, job, s)
  {
    if job in db.jobs {
      if (job, s) in db.budgets {
        assert WithinBudget(db, job, s);
      }
      var n := db.jobs[job].attempt - 1;
      AttemptsCounted(db, job, n);
      SubsetSize((set k | k in Retried(db, job) && k.attempt <= n), Retried(db, job));
    }
  }
}
