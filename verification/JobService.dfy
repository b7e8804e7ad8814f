/**
 Job mutations: planning, paid approval, state transitions and the manifest binding, each one
 transaction with its audit row, and what the audit log of a job proves about it whoever calls
 them, in whatever order.
 */
module JobService {
  import opened Texts
  import opened RunnerTables
  import RunnerFencing

  // ---- The transition graph -----------------------------------------------------------------------------------------

  predicate Allowed(s: JobState, t: JobState) {
    match s
    case DraftState => t.Validated?
    case Validated => t.Planned?
    case Planned => t.AwaitingPaidApproval?
    case AwaitingPaidApproval => t.Queued?
    case Queued => t.Running? || t.FailedRetryable? || t.Canceled?
    case Running => t.Succeeded? || t.FailedRetryable? || t.Canceled? || t.FailedFinal?
    case Succeeded => t.AwaitingExportApproval?
    case AwaitingExportApproval => t.Exported?
    case FailedRetryable => t.Queued?
    case _ => false
  }

  /** Edges that only an approval may take. */
  predicate Reserved(s: JobState, t: JobState) {
    (s.AwaitingPaidApproval? && t.Queued?) || (s.AwaitingExportApproval? && t.Exported?)
  }

  predicate Finished(s: JobState) {
    s.Succeeded? || s.FailedFinal? || s.Canceled? || s.Exported?
  }

  predicate Active(s: JobState) {
    s.Queued? || s.Running? || s.FailedRetryable?
  }

  /** Another job of the same creator is queued, running or retryable. */
  predicate CreatorBusy(jobs: map<JobKey, Job>, key: JobKey, creator: string) {
    exists other :: other in jobs && other != key && jobs[other].creator == creator && Active(jobs[other].state)
  }

  // ---- Operations ---------------------------------------------------------------------------------------------------

  predicate Blank(s: Option<Stage>) {
    s.Some? && s.value.Named? && Strip(s.value.raw) == ""
  }

  predicate WindowOpen(w: Window, now: Time) {
    w.approvedAt <= now && (w.expires.Some? ==> w.approvedAt < w.expires.value && now < w.expires.value)
  }

  /** Checks of `transition` after the state comparison; `intact` stands for the plan, snapshot and
      approval records verifying. */
  predicate MayMove(j: Job, target: JobState, reason: Failure, coded: bool, stage: Option<Stage>, now: Time,
                    intact: bool)
  {
    && !j.superseded && !Reserved(j.state, target) && Allowed(j.state, target)
    && (intact || (j.state.DraftState? && target.Validated?))
    && (target.Running? || target.Succeeded? || target.AwaitingExportApproval? || target.Exported? ==> j.approval.Some?)
    && (target.Running? ==> WindowOpen(j.approval.value, now))
    && (coded ==>
          if target.FailedRetryable? || target.FailedFinal? then Strip(reason.code) != ""
          else j.state.FailedRetryable? && target.Queued?)
    && !Blank(stage)
  }

  function Moved(j: Job, target: JobState, reason: Failure, coded: bool, stage: Option<Stage>, now: Time): Job {
    var failing := target.FailedRetryable? || target.FailedFinal?;
    var retrying := j.state.FailedRetryable? && target.Queued?;
    j.(state := target,
       attempt := j.attempt + if retrying then 1 else 0,
       started := if target.Running? then Coalesce(j.started, Some(now)) else j.started,
       finished := if Finished(target) then Coalesce(j.finished, Some(now)) else j.finished,
       errorCode :=
         if failing && coded then Some(reason.code) else if retrying then None else j.errorCode,
       errorSummary := if failing then Some(reason.summary) else if retrying then None else j.errorSummary,
       stage := Coalesce(stage, j.stage))
  }

  /** `JobService.transition`: compare the state (not the attempt), move, append the audit row. */
  function Transition(db: Db, key: JobKey, expected: JobState, target: JobState, reason: Failure, coded: bool,
                      stage: Option<Stage>, now: Time, intact: bool): (Db, Answer)
  {
    if key !in db.jobs then (db, Raised)
    else
      var j := db.jobs[key];
      if j.state.Canceled? && target.Canceled? then (db, Yes)
      else if j.state != expected || !MayMove(j, target, reason, coded, stage, now, intact) then (db, Raised)
      else if Active(target) && !Active(j.state) && CreatorBusy(db.jobs, key, j.creator) then (db, Raised)
      else
        (Logged(db.(jobs := db.jobs[key := Moved(j, target, reason, coded, stage, now)]), key, Some(j.state),
                target), Yes)
  }

  predicate Pending(s: JobState) {
    s.DraftState? || s.Validated? || s.Planned? || s.AwaitingPaidApproval?
  }

  function NewJob(creator: string, maxRetries: nat): Job {
    Job(Planned, None, 1, None, None, None, None, None, false, None, creator, maxRetries)
  }

  /** `plan_job`: insert the job and supersede the creator's pending ones in the same company. */
  function Plan(db: Db, key: JobKey, creator: string, maxRetries: nat): (Db, Answer) {
    if exists other :: other in db.jobs && other.job == key.job then (db, Raised)
    else
      var jobs := map other | other in db.jobs ::
        if other.company == key.company && db.jobs[other].creator == creator && Pending(db.jobs[other].state)
        then db.jobs[other].(superseded := true) else db.jobs[other];
      (Logged(db.(jobs := jobs[key := NewJob(creator, maxRetries)]), key, None, Planned), Yes)
  }

  /** `approve_job`: bind the one paid approval and queue the job. `intact` stands for the stored
      records verifying and the presented fingerprints matching them. */
  function Approve(db: Db, key: JobKey, window: Window, intact: bool): (Db, Answer) {
    if key !in db.jobs then (db, Raised)
    else
      var j := db.jobs[key];
      if || !j.state.AwaitingPaidApproval? || j.superseded || !intact || j.approval.Some?
         || CreatorBusy(db.jobs, key, j.creator)
      then (db, Raised)
      else (Logged(db.(jobs := db.jobs[key := j.(state := Queued, approval := Some(window))]), key,
                   Some(AwaitingPaidApproval), Queued), Yes)
  }

  /** `bind_artifact_manifest`: attach the manifest of a succeeded job once. */
  function BindManifest(db: Db, key: JobKey, path: string, verified: bool): (Db, Answer) {
    if key !in db.jobs || !db.jobs[key].state.Succeeded? then (db, Raised)
    else
      var j := db.jobs[key];
      if j.artifact.Some? then (db, if j.artifact.value == path then Yes else Raised)
      else if !verified || j.superseded then (db, Raised)
      else (db.(jobs := db.jobs[key := j.(artifact := Some(path))]), Yes)
  }

  /** Everything anyone can do to the tables, one transaction each. */
  datatype DbOp =
    | OpCall(call: Call)
    | OpTransition(key: JobKey, expected: JobState, target: JobState, reason: Failure, coded: bool,
                   stage: Option<Stage>, now: Time, intact: bool)
    | OpPlan(key: JobKey, creator: string, maxRetries: nat)
    | OpApprove(key: JobKey, window: Window, intact: bool)
    | OpBindManifest(key: JobKey, path: string, verified: bool)

  function Perform(db: Db, op: DbOp): (Db, Answer) {
    match op
    case OpCall(call) => Apply(db, call)
    case OpTransition(key, expected, target, reason, coded, stage, now, intact) =>
      Transition(db, key, expected, target, reason, coded, stage, now, intact)
    case OpPlan(key, creator, maxRetries) => Plan(db, key, creator, maxRetries)
    case OpApprove(key, window, intact) => Approve(db, key, window, intact)
    case OpBindManifest(key, path, verified) => BindManifest(db, key, path, verified)
  }

  /** Only repository calls touch run rows and budgets. */
  lemma ServiceKeepsRuns(db: Db, op: DbOp)
    requires !op.OpCall?
    ensures Perform(db, op).0.runs == db.runs && Perform(db, op).0.budgets == db.budgets
  {
    hide MayMove, CreatorBusy;
  }

  // ---- Audit logs ---------------------------------------------------------------------------------------------------

  ghost predicate IsWalk(log: seq<Edge>) {
    && log != [] && log[0] == Edge(None, Planned)
    && forall i, j :: 0 <= i && i + 1 == j < |log| ==> log[j].from == Some(log[i].to) && Allowed(log[i].to, log[j].to)
  }

  function CountEdge(log: seq<Edge>, e: Edge): nat {
    if log == [] then 0 else CountEdge(log[..|log| - 1], e) + if log[|log| - 1] == e then 1 else 0
  }

  function Entries(log: seq<Edge>, s: JobState): nat {
    if log == [] then 0 else Entries(log[..|log| - 1], s) + if log[|log| - 1].to == s then 1 else 0
  }

  function Exits(log: seq<Edge>, s: JobState): nat {
    if log == [] then 0 else Exits(log[..|log| - 1], s) + if log[|log| - 1].from == Some(s) then 1 else 0
  }

  const RETRY := Edge(Some(FailedRetryable), Queued)
  const APPROVAL := Edge(Some(AwaitingPaidApproval), Queued)
  const DISPATCH := Edge(Some(Queued), Running)

  /** What the log of one job says about its row. */
  ghost predicate AuditOk(j: Job, log: seq<Edge>) {
    && IsWalk(log) && log[|log| - 1].to == j.state
    && j.attempt == 1 + CountEdge(log, RETRY)
    && CountEdge(log, APPROVAL) == (if j.approval.Some? then 1 else 0)
  }

  ghost predicate Audited(db: Db) {
    && (forall key :: key in db.jobs ==> AuditOk(db.jobs[key], Log(db, key)))
    && (forall key :: key in db.logs ==> key in db.jobs)
  }

  lemma WalkPrefix(log: seq<Edge>)
    requires IsWalk(log) && |log| > 1
    ensures IsWalk(log[..|log| - 1])
  {
  }

  /** In a walk every entry into a state is left again, except possibly the last. */
  lemma {:induction false} WalkConserves(log: seq<Edge>, s: JobState)
    requires IsWalk(log)
    ensures Entries(log, s) == Exits(log, s) + if log[|log| - 1].to == s then 1 else 0
    decreases |log|
  {
    var n := |log| - 1;
    if n == 0 {
      assert log[..0] == [];
    } else {
      WalkPrefix(log);
      WalkConserves(log[..n], s);
      assert log[n].from == Some(log[n - 1].to);
    }
  }

  lemma {:induction false} QueueCounts(log: seq<Edge>)
    requires IsWalk(log)
    ensures CountEdge(log, DISPATCH) <= Exits(log, Queued)
    ensures Entries(log, Queued) == CountEdge(log, RETRY) + CountEdge(log, APPROVAL)
    decreases |log|
  {
    var n := |log| - 1;
    if n == 0 {
      assert log[..0] == [];
    } else {
      WalkPrefix(log);
      QueueCounts(log[..n]);
      assert log[n].from == Some(log[n - 1].to) && Allowed(log[n - 1].to, log[n].to);
    }
  }

  /** Dispatches never outnumber attempts, and nothing was dispatched without a bound approval. */
  lemma DispatchesBounded(j: Job, log: seq<Edge>)
    requires AuditOk(j, log)
    ensures CountEdge(log, DISPATCH) <= j.attempt
    ensures j.approval.None? ==> CountEdge(log, DISPATCH) == 0 && Pending(j.state)
  {
    QueueCounts(log);
    WalkConserves(log, Queued);
    if j.approval.None? {
      UnapprovedIsPending(log);
    }
  }

  /** Without an approval edge the walk has not left the pending states. */
  lemma {:induction false} UnapprovedIsPending(log: seq<Edge>)
    requires IsWalk(log) && CountEdge(log, APPROVAL) == 0
    ensures Pending(log[|log| - 1].to) && CountEdge(log, RETRY) == 0 && CountEdge(log, DISPATCH) == 0
    decreases |log|
  {
    var n := |log| - 1;
    if n == 0 {
      assert log[..0] == [];
    } else {
      WalkPrefix(log);
      UnapprovedIsPending(log[..n]);
      assert log[n].from == Some(log[n - 1].to) && Allowed(log[n - 1].to, log[n].to);
    }
  }

  lemma WalkGrows(log: seq<Edge>, from: JobState, to: JobState)
    requires IsWalk(log) && log[|log| - 1].to == from && Allowed(from, to)
    ensures IsWalk(log + [Edge(Some(from), to)])
  {
  }

  /** One audited move of one job. */
  lemma MoveKeepsAudit(j: Job, log: seq<Edge>, k: Job)
    requires AuditOk(j, log) && Allowed(j.state, k.state)
    requires k.attempt == j.attempt + if Edge(Some(j.state), k.state) == RETRY then 1 else 0
    requires if Edge(Some(j.state), k.state) == APPROVAL then j.approval.None? && k.approval.Some?
      else k.approval == j.approval
    ensures AuditOk(k, log + [Edge(Some(j.state), k.state)])
  {
    var e := Edge(Some(j.state), k.state);
    WalkGrows(log, j.state, k.state);
    assert (log + [e])[..|log|] == log;
  }

  // ---- Every operation keeps the audit ------------------------------------------------------------------------------

  /** Same job up to its stage and error columns. */
  ghost predicate SameCore(j: Job, k: Job) {
    k == j.(stage := k.stage, errorCode := k.errorCode, errorSummary := k.errorSummary)
  }

  ghost predicate CoreKept(db: Db, d: Db) {
    d.logs == db.logs && d.jobs.Keys == db.jobs.Keys && forall key :: key in db.jobs ==>
      SameCore(db.jobs[key], d.jobs[key])
  }

  lemma FinishOnJobs(db: Db, call: Call)
    ensures var d := Finish(db, call).0;
      CoreKept(db, d)
      || (call.ClaimSubmission? && call.state.Queued? && JobActive(db, call.k, Queued)
          && d == Dispatched(db, call.k, call.now))
  {
    hide JobIs, JobActive, OnJob, Restaged, Charged, CoreKept, Dispatched, Charges;
    CoreRefl(db);
    var s, on := Charges(call), OnJob(db, call);
    if s.Some? {
      ChargedCore(db, call.k.job, s.value);
    } else if on.JobUpdate? && call.k.job in db.jobs {
      RestagedCore(db, call.k.job, on.stage, on.failure);
    }
  }

  lemma ChargedCore(db: Db, job: JobKey, s: RetryStage)
    ensures CoreKept(db, Charged(db, job, s))
  {
  }

  lemma RestagedCore(db: Db, job: JobKey, stage: Option<Stage>, f: Option<Failure>)
    requires job in db.jobs
    ensures CoreKept(db, Restaged(db, job, stage, f))
  {
  }

  /** A repository call leaves states, attempts and logs alone, except that claiming a queued
      submission dispatches the job. */
  lemma CallOnJobs(db: Db, call: Call)
    ensures var d := Apply(db, call).0;
      CoreKept(db, d)
      || (call.ClaimSubmission? && call.state.Queued? && JobActive(db, call.k, Queued)
          && d == Dispatched(db.(runs := d.runs), call.k, call.now))
  {
    hide Matches, After, UpdateOk, Inserts, RowOk, Finish, CoreKept;
    var db1 := WithInsert(db, call);
    CoreRefl(db);
    if db1.Some? {
      FinishAfter(db, db1.value, call);
      if call.k in db1.value.runs {
        FinishAfter(db, db1.value.(runs := db1.value.runs[call.k := After(call, db1.value.runs[call.k])]), call);
      }
      CoreOf(db, db1.value);
    }
  }

  lemma CoreRefl(db: Db)
    ensures CoreKept(db, db)
  {
  }

  lemma CoreOf(db: Db, d: Db)
    requires d.jobs == db.jobs && d.logs == db.logs
    ensures CoreKept(db, d)
  {
  }

  lemma FinishAfter(db: Db, d: Db, call: Call)
    requires d == db.(runs := d.runs)
    ensures var e := Finish(d, call).0;
      CoreKept(db, e)
      || (call.ClaimSubmission? && call.state.Queued? && JobActive(db, call.k, Queued)
          && e == Dispatched(db.(runs := e.runs), call.k, call.now))
  {
    hide Finish;
    FinishOnJobs(d, call);
    RunnerFencing.FinishKeepsRuns(d, call);
  }

  lemma CallKeepsAudit(db: Db, call: Call)
    requires Audited(db)
    ensures Audited(Apply(db, call).0)
  {
    hide Apply, IsWalk, CountEdge;
    CallOnJobs(db, call);
    var d := Apply(db, call).0;
    if !CoreKept(db, d) {
      var key := call.k.job;
      MoveKeepsAudit(db.jobs[key], Log(db, key), d.jobs[key]);
    }
  }

  lemma TransitionKeepsAudit(db: Db, op: DbOp)
    requires Audited(db) && op.OpTransition?
    ensures Audited(Perform(db, op).0)
  {
    hide IsWalk, CountEdge, CreatorBusy, Strip;
    var d := Perform(db, op).0;
    if d != db {
      MoveKeepsAudit(db.jobs[op.key], Log(db, op.key), d.jobs[op.key]);
    }
  }

  /** Whatever operation runs, every log stays a walk from PLANNED to the current state, the attempt
      stays one more than the retries, and the approval stays bound at exactly one edge. */
  lemma PerformKeepsAudit(db: Db, op: DbOp)
    requires Audited(db)
    ensures Audited(Perform(db, op).0)
  {
    hide IsWalk, CountEdge, Apply, Transition, Plan, Approve;
    match op
    case OpCall(call) => CallKeepsAudit(db, call);
    case OpTransition(_, _, _, _, _, _, _, _) => TransitionKeepsAudit(db, op);
    case OpPlan(key, creator, maxRetries) => PlanKeepsAudit(db, key, creator, maxRetries);
    case OpApprove(key, window, intact) => ApproveKeepsAudit(db, key, window, intact);
    case OpBindManifest(_, _, _) =>
  }

  lemma FirstLog(creator: string, maxRetries: nat)
    ensures AuditOk(NewJob(creator, maxRetries), [] + [Edge(None, Planned)])
  {
    assert [Edge(None, Planned)][..0] == [];
  }

  lemma PlanKeepsAudit(db: Db, key: JobKey, creator: string, maxRetries: nat)
    requires Audited(db)
    ensures Audited(Plan(db, key, creator, maxRetries).0)
  {
    hide IsWalk, CountEdge;
    var d := Plan(db, key, creator, maxRetries).0;
    if d != db {
      assert key !in db.jobs;
      FirstLog(creator, maxRetries);
      forall other | other in d.jobs ensures AuditOk(d.jobs[other], Log(d, other)) {
        if other != key {
          assert AuditOk(db.jobs[other], Log(db, other));
        }
      }
    }
  }

  lemma ApproveKeepsAudit(db: Db, key: JobKey, window: Window, intact: bool)
    requires Audited(db)
    ensures Audited(Approve(db, key, window, intact).0)
  {
    hide IsWalk, CountEdge, CreatorBusy;
    var d := Approve(db, key, window, intact).0;
    if d != db {
      MoveKeepsAudit(db.jobs[key], Log(db, key), d.jobs[key]);
    }
  }

  ghost function PerformAll(db: Db, ops: seq<DbOp>): Db
    decreases |ops|
  {
    if ops == [] then db else Perform(PerformAll(db, ops[..|ops| - 1]), ops[|ops| - 1]).0
  }

  /** Audit conservation over every run from empty tables. */
  lemma {:induction false} RunsAreAudited(ops: seq<DbOp>, key: JobKey)
    ensures var d := PerformAll(Db(map[], map[], map[], map[]), ops);
      && Audited(d)
      && (key in d.jobs ==>
            && IsWalk(Log(d, key)) && d.jobs[key].attempt == 1 + CountEdge(Log(d, key), RETRY)
            && CountEdge(Log(d, key), DISPATCH) <= d.jobs[key].attempt
            && (d.jobs[key].approval.Some? <==> CountEdge(Log(d, key), APPROVAL) == 1))
    decreases |ops|
  {
    hide Perform, IsWalk, CountEdge;
    var d := PerformAll(Db(map[], map[], map[], map[]), ops);
    if ops != [] {
      RunsAreAudited(ops[..|ops| - 1], key);
      PerformKeepsAudit(PerformAll(Db(map[], map[], map[], map[]), ops[..|ops| - 1]), ops[|ops| - 1]);
    }
    if key in d.jobs {
      DispatchesBounded(d.jobs[key], Log(d, key));
    }
  }

  // ---- Write-once columns and active jobs ---------------------------------------------------------------------------

  /** `k` is a later version of job `j`. */
  ghost predicate Later(j: Job, k: Job) {
    && k.creator == j.creator && k.maxRetries == j.maxRetries && j.attempt <= k.attempt
    && (j.approval.Some? ==> k.approval == j.approval)
    && (j.artifact.Some? ==> k.artifact == j.artifact)
    && (j.superseded ==> k.superseded && k.state == j.state)
    && (j.state.Canceled? || j.state.FailedFinal? || j.state.Exported? ==> k.state == j.state)
  }

  lemma CallForward(db: Db, call: Call, key: JobKey)
    requires key in db.jobs
    ensures var d := Apply(db, call).0;
            key in d.jobs && Later(db.jobs[key], d.jobs[key]) && Log(db, key) <= Log(d, key)
  {
    hide Apply;
    CallOnJobs(db, call);
  }

  lemma PlanForward(db: Db, at: JobKey, creator: string, maxRetries: nat, key: JobKey)
    requires key in db.jobs
    ensures var d := Plan(db, at, creator, maxRetries).0;
            key in d.jobs && Later(db.jobs[key], d.jobs[key]) && Log(db, key) <= Log(d, key)
  {
  }

  /** Across any operation, jobs never disappear, logs only grow, bindings are written once, a
      superseded job is frozen, and a final state is final. */
  lemma JobsForward(db: Db, op: DbOp, key: JobKey)
    requires key in db.jobs
    ensures var d := Perform(db, op).0;
            key in d.jobs && Later(db.jobs[key], d.jobs[key]) && Log(db, key) <= Log(d, key)
  {
    hide Apply, Plan, CreatorBusy, Strip, Blank, WindowOpen;
    match op
    case OpCall(call) => CallForward(db, call, key);
    case OpPlan(at, creator, maxRetries) => PlanForward(db, at, creator, maxRetries, key);
    case _ =>
  }

  ghost predicate OneActive(jobs: map<JobKey, Job>) {
    forall a, b ::
      && a in jobs && b in jobs && Active(jobs[a].state) && Active(jobs[b].state)
      && jobs[a].creator == jobs[b].creator
      ==> a == b
  }

  lemma ActiveMove(jobs: map<JobKey, Job>, key: JobKey, k: Job)
    requires OneActive(jobs) && key in jobs && k.creator == jobs[key].creator
    requires Active(k.state) && !Active(jobs[key].state) ==> !CreatorBusy(jobs, key, k.creator)
    ensures OneActive(jobs[key := k])
  {
  }

  /** At most one job of a creator is queued, running or retryable. */
  lemma PerformKeepsOneActive(db: Db, op: DbOp)
    requires OneActive(db.jobs)
    ensures OneActive(Perform(db, op).0.jobs)
  {
    hide Apply, CreatorBusy, Strip, Blank, MayMove, WindowOpen;
    var d := Perform(db, op).0;
    match op
    case OpCall(call) =>
      CallOnJobs(db, call);
      if !CoreKept(db, d) {
        ActiveMove(db.jobs, call.k.job, d.jobs[call.k.job]);
      }
    case OpTransition(key, _, _, _, _, _, _, _) =>
      if d.jobs != db.jobs {
        ActiveMove(db.jobs, key, d.jobs[key]);
      }
    case OpPlan(_, _, _) =>
    case OpApprove(key, _, _) =>
      if d.jobs != db.jobs {
        ActiveMove(db.jobs, key, d.jobs[key]);
      }
    case OpBindManifest(key, _, _) =>
      if d.jobs != db.jobs {
        ActiveMove(db.jobs, key, d.jobs[key]);
      }
  }

  /** In every run from empty tables, two jobs of one creator are never both queued, running or
      retryable, in whatever company they are. */
  lemma {:induction false} NeverTwoActive(ops: seq<DbOp>, a: JobKey, b: JobKey)
    requires a != b
    ensures var jobs, active := PerformAll(Db(map[], map[], map[], map[]), ops).jobs,
    {Queued, Running, FailedRetryable};
      a in jobs && b in jobs && jobs[a].state in active && jobs[b].state in active ==>
        jobs[a].creator != jobs[b].creator
  {
    RunsOneActive(ops);
  }

  lemma {:induction false} RunsOneActive(ops: seq<DbOp>)
    ensures OneActive(PerformAll(Db(map[], map[], map[], map[]), ops).jobs)
    decreases |ops|
  {
    hide Perform, OneActive;
    if ops == [] {
      NoneActive();
    } else {
      RunsOneActive(ops[..|ops| - 1]);
      PerformKeepsOneActive(PerformAll(Db(map[], map[], map[], map[]), ops[..|ops| - 1]), ops[|ops| - 1]);
    }
  }

  lemma NoneActive()
    ensures OneActive(map[])
  {
  }
}
