/**
 The dispatch protocol: any number of runners, the worker API, crashes and the external provider,
 interleaved transaction by transaction. A runner remembers only its `Local` between steps; a crash
 forgets it. Executor calls are steps of their own, so a crash can fall between claim, submit and
 record.
 */
module RunnerProtocol {
  import opened Texts
  import opened RunnerTables
  import opened JobService

  /** One row of the provider's durable table, by idempotency key. */
  datatype Entry = Entry(runId: string, acceptedAt: Time, canceled: bool)

  datatype ExternalRun = ExternalRun(runId: string, key: string, acceptedAt: Time)

  /** What a runner holds between two of its transactions. */
  datatype Local =
    | Idle
    | Launching(k: RunKey, token: string, row: Run)
    | LookingUp(k: RunKey, token: string, row: Run)
    | Received(k: RunKey, token: string, row: Run, ext: ExternalRun, canceled: bool)
    | SubmitCounted(k: RunKey, token: string, count: nat)
    | Polling(k: RunKey, token: string, row: Run)
    | PollRefused(k: RunKey, token: string, row: Run, count: nat)
    | PollCounted(k: RunKey, token: string, report: Report, count: nat)
    | Polled(k: RunKey, target: JobState, failure: Failure, stage: Option<Stage>)
    | Requeueing(k: RunKey, token: string)
    | Requeued(k: RunKey, token: string)
    | Finalizing(k: RunKey, token: string, row: Run)
    | CancelBegun(k: RunKey, token: string, row: Run)
    | CancelConfirmed(k: RunKey, token: string)
    | CancelCounted(k: RunKey, token: string, count: nat)

  /** A failing status reported by the provider. */
  datatype Report = Report(retryable: bool, transient: bool, stage: string, failure: Failure)

  datatype World = World(db: Db, provider: map<string, Entry>, runners: map<nat, Local>)

  const EXECUTOR := "mock"

  const START := World(Db(map[], map[], map[], map[]), map[], map[])

  function LocalOf(w: World, r: nat): Local {
    if r in w.runners then w.runners[r] else Idle
  }

  function At(w: World, db: Db, r: nat, l: Local): World {
    w.(db := db, runners := w.runners[r := l])
  }

  function ToRun(key: string, e: Entry): ExternalRun {
    ExternalRun(e.runId, key, e.acceptedAt)
  }

  function PaidWindow(db: Db, job: JobKey): Option<Window> {
    if job in db.jobs then db.jobs[job].approval else None
  }

  /** `_acceptance_provenance_valid`. */
  predicate ProvenanceOk(w: Option<Window>, submittedAt: Option<Time>, acceptedAt: Time, observedAt: Time) {
    && w.Some? && submittedAt.Some?
    && w.value.approvedAt <= submittedAt.value <= acceptedAt <= observedAt
    && (w.value.expires.Some? ==> acceptedAt < w.value.expires.value)
  }

  datatype Purpose = ForPoll | ForRequeue | ForFinalize(state: JobState) | ForCancel

  function ClaimFor(k: RunKey, purpose: Purpose, now: Time, lease: Lease): Call {
    match purpose
    case ForPoll => ClaimExisting(k, Running, {XAccepted, XRunning}, now, lease)
    case ForRequeue => ClaimExisting(k, FailedRetryable, {XFailedRetryable}, now, lease)
    case ForFinalize(state) =>
      ClaimExisting(k, state, {XSucceeded, XFailedRetryable, XFailedFinal, XCanceled}, now, lease)
    case ForCancel => ClaimExisting(k, Canceled, {XAccepted, XRunning}, now, lease)
  }

  function HeldFor(k: RunKey, purpose: Purpose, token: string, row: Run): Local {
    match purpose
    case ForPoll => Polling(k, token, row)
    case ForRequeue => Requeueing(k, token)
    case ForFinalize(_) => Finalizing(k, token, row)
    case ForCancel => CancelBegun(k, token, row)
  }

  /** Calls that park a row, give a lease back or note a stage: they touch neither the external
      outcome nor a budget nor a job's state, and a runner may issue them from anywhere. */
  predicate Housekeeping(call: Call) {
    || call.ReconcilePollAfterCancel? || call.ReconcileTerminalAfterCancel? || call.ReconcileClaimedTerminalAfterCancel?
    || call.RecordExhaustedPollAfterCancel? || call.MarkPollReconciliation? || call.UpdateRunningStage?
    || call.MarkClaimedReconciliation? || call.MarkObservedReconciliation? || call.MarkClaimedCancelLookup?
    || call.QuarantineRunningDispatch? || call.QuarantineQueued? || call.BeginCancel?
       || call.MarkKnownCancelReconciliation?
    || call.MarkCancelReconciliation? || call.ReleaseLease? || call.MarkReconciliation?
  }

  /** What the worker API and the artifact step may do to a job. */
  predicate ServiceOp(op: DbOp) {
    match op
    case OpPlan(_, _, _) => true
    case OpApprove(_, _, _) => true
    case OpBindManifest(_, _, _) => true
    case OpTransition(_, s, t, _, _, _, _, _) =>
      || (s.Planned? && t.AwaitingPaidApproval?) || ((s.Queued? || s.Running?) && t.Canceled?)
         || (s.FailedRetryable? && t.Queued?)
    case OpCall(_) => false
  }

  datatype Step =
    | Service(op: DbOp)
    | Housekeep(call: Call)
    | Crash(r: nat)
    // dispatch
    | Claim(r: nat, k: RunKey, state: JobState, now: Time, lease: Lease)
    | ClaimLookup(r: nat, k: RunKey, now: Time, lease: Lease)
    | Submit(r: nat, acceptedAt: Time, runId: string)
    | Lookup(r: nat)
    | Record(r: nat, now: Time)
    | SubmitFails(r: nat)
    | RecordSubmitFails(r: nat, nextAt: Time, failure: Failure)
    // poll
    | ClaimRun(r: nat, k: RunKey, purpose: Purpose, now: Time, lease: Lease)
    | PollLive(r: nat, status: External, stage: Option<Stage>, retryStage: string, nextAt: Time, note: Option<Failure>)
    | PollSucceeds(r: nat, stage: Option<Stage>, retryStage: string, now: Time, result: Payload)
    | PollCanceled(r: nat, stage: Option<Stage>, retryStage: string, now: Time)
    | PollReports(r: nat, report: Report)
    | RecordReport(r: nat, stage: Option<Stage>, nextAt: Time, now: Time)
    | PollRaises(r: nat)
    | RecordRaise(r: nat, transient: bool, failure: Failure, nextAt: Time, now: Time)
    | ApplyOutcome(r: nat, now: Time, intact: bool)
    // retry, recovery, cancellation
    | Retry(r: nat, now: Time, intact: bool)
    | Consume(r: nat)
    | Finalize(r: nat, now: Time, intact: bool)
    | CancelRun(r: nat)
    | CancelFails(r: nat)
    | RecordCancelFails(r: nat, retryAt: Time, failure: Failure)
    | RecordCanceled(r: nat, now: Time)

  /** Run one repository call and hold `then_` if it matched. */
  function Called(w: World, r: nat, call: Call, next: Local): World {
    var out := Apply(w.db, call);
    At(w, out.0, r, if out.1.Yes? then next else Idle)
  }

  function ClaimStep(w: World, r: nat, call: Call, next: Run -> Local): World {
    var out := Apply(w.db, call);
    At(w, out.0, r, if out.1.Yes? && call.k in out.0.runs then next(out.0.runs[call.k]) else Idle)
  }

  /** `MockExecutor._submit`: an existing run for the key, or a new one inside the authority window. */
  function SubmitStep(w: World, r: nat, l: Local, acceptedAt: Time, runId: string): World
    requires l.Launching?
  {
    var key, window := KeyText(l.k), PaidWindow(w.db, l.k.job);
    if key in w.provider then At(w, w.db, r, Received(l.k, l.token, l.row, ToRun(key, w.provider[key]), false))
    else if window.None? || (window.value.expires.Some? && window.value.expires.value <= acceptedAt) then w
    else if exists other :: other in w.provider && w.provider[other].runId == runId then w
    else
      var e := Entry(runId, acceptedAt, false);
      At(w.(provider := w.provider[key := e]), w.db, r, Received(l.k, l.token, l.row, ToRun(key, e), false))
  }

  function LookupStep(w: World, r: nat, l: Local): World
    requires l.Launching? || l.LookingUp?
  {
    var key := KeyText(l.k);
    if key in w.provider then At(w, w.db, r,
                                 Received(l.k, l.token, l.row, ToRun(key, w.provider[key]), l.LookingUp?)) else w
  }

  function RecordStep(w: World, r: nat, l: Local, now: Time): World
    requires l.Received?
  {
    if l.ext.key != KeyText(l.k)
      || !ProvenanceOk(PaidWindow(w.db, l.k.job), l.row.submittedAt, l.ext.acceptedAt, now) then w
    else
      var ext := Acceptance(l.ext.runId, l.ext.acceptedAt, now);
      Called(w, r, if l.canceled then RecordLookupAcceptance(l.k, l.token, l.ext.key, EXECUTOR, ext)
                   else RecordAcceptance(l.k, l.token, l.ext.key, EXECUTOR, ext), Idle)
  }

  /** Retryable reports become FAILED_RETRYABLE while the stage's budget lasts, all others
      FAILED_FINAL; a transient retryable report is charged either way. */
  function ReportStep(w: World, r: nat, l: Local, stage: Option<Stage>, nextAt: Time, now: Time): World
    requires l.PollCounted?
  {
    var rep := l.report;
    var consume := rep.retryable && rep.transient;
    var again := consume && l.count + 1 <= MaxRetries(w.db, l.k.job);
    Called(w, r, RecordPollStatus(l.k, l.token, if again then XFailedRetryable else XFailedFinal, stage,
                                  Poll(rep.stage), consume,
                                  if again then Some(nextAt) else None, if again then None else Some(now),
                                  Some(rep.failure), None),
           Polled(l.k, if again then FailedRetryable else FailedFinal, rep.failure, stage))
  }

  /** A poll that raised: charged and retried while the budget lasts, otherwise final if it is not
      transient (an exhausted transient error is parked by housekeeping). */
  function RaiseStep(w: World, r: nat, l: Local, transient: bool, f: Failure, nextAt: Time, now: Time): World
    requires l.PollRefused?
  {
    if transient then
      if l.count + 1 <= MaxRetries(w.db, l.k.job)
      then Called(w, r, RecordPollFailure(l.k, l.token, Some(nextAt), l.row.stage, l.row.retryStage, f), Idle)
      else w
    else
      Called(w, r, RecordPollStatus(l.k, l.token, XFailedFinal, l.row.stage, l.row.retryStage, false, None,
                                    Some(now), Some(f), None),
             Polled(l.k, FailedFinal, f, l.row.stage))
  }

  /** `JobService.transition`; a refused transition ends the tick. */
  function MoveJob(w: World, r: nat, k: RunKey, s: JobState, t: JobState, f: Failure, stage: Option<Stage>, now: Time,
                   intact: bool, next: Local): World
  {
    var out := Transition(w.db, k.job, s, t, f, t.FailedRetryable? || t.FailedFinal?, stage, now, intact);
    At(w, out.0, r, if out.1.Yes? then next else Idle)
  }

  /** `_finalize_claimed_terminal`, one job transition at a time. */
  function FinalizeStep(w: World, r: nat, l: Local, now: Time, intact: bool): World
    requires l.Finalizing?
  {
    var k := l.k;
    var f := Failure(if l.row.errorCode.Some? then l.row.errorCode.value else "",
                     if l.row.errorSummary.Some? then l.row.errorSummary.value else "");
    if || k.job !in w.db.jobs || l.row.status.None? || l.row.ext.None?
       || !ProvenanceOk(PaidWindow(w.db, k.job), l.row.submittedAt, l.row.ext.value.acceptedAt,
                        l.row.ext.value.observedAt) then w
    else
      var state := w.db.jobs[k.job].state;
      match l.row.status.value
      case XSucceeded => if state.Running? && l.row.result.Some?
        then MoveJob(w, r, k, Running, Succeeded, f, l.row.stage, now, intact, l) else w
      case XCanceled => if state.Running?
        then MoveJob(w, r, k, Running, Canceled, f, l.row.stage, now, intact, Idle) else w
      case XFailedRetryable =>
        if l.row.errorCode.None? || l.row.errorSummary.None? then w
        else if state.Queued? then MoveJob(w, r, k, Queued, FailedRetryable, f, l.row.stage, now, intact, Idle)
        else if state.Running? then MoveJob(w, r, k, Running, FailedRetryable, f, l.row.stage, now, intact, Idle)
        else w
      case XFailedFinal =>
        if l.row.errorCode.None? || l.row.errorSummary.None? then w
        else if state.Queued? then MoveJob(w, r, k, Queued, Running, f, None, now, intact, l)
        else if state.Running? then MoveJob(w, r, k, Running, FailedFinal, f, l.row.stage, now, intact, Idle)
        else w
      case _ => w
  }

  /** `MockExecutor.cancel`: only a stored run with this identity, and idempotent. */
  function CancelStep(w: World, r: nat, l: Local): World
    requires l.CancelBegun?
  {
    var key := l.row.key;
    if l.row.ext.None? || key !in w.provider || w.provider[key].runId != l.row.ext.value.runId
      || w.provider[key].acceptedAt != l.row.ext.value.acceptedAt
    then w
    else At(w.(provider := w.provider[key := w.provider[key].(canceled := true)]), w.db, r,
            CancelConfirmed(l.k, l.token))
  }

  function Next(w: World, s: Step): World {
    match s
    case Service(op) => if ServiceOp(op) then w.(db := Perform(w.db, op).0) else w
    case Housekeep(call) => if Housekeeping(call) then w.(db := Apply(w.db, call).0) else w
    case Crash(r) => At(w, w.db, r, Idle)
    case Claim(r, k, state, now, lease) =>
      if !LocalOf(w, r).Idle? then w
      else ClaimStep(w, r, ClaimSubmission(k, state, KeyText(k), EXECUTOR, now, lease),
                     row => Launching(k, lease.token, row))
    case ClaimLookup(r, k, now, lease) =>
      if !LocalOf(w, r).Idle? then w
        else ClaimStep(w, r, ClaimCanceledLookup(k, now, lease), row => LookingUp(k, lease.token, row))
    case ClaimRun(r, k, purpose, now, lease) =>
      if !LocalOf(w, r).Idle?
        || (purpose.ForFinalize?
            && !(purpose.state.Running? || purpose.state.Queued? || purpose.state.Succeeded?)) then w
      else ClaimStep(w, r, ClaimFor(k, purpose, now, lease), row => HeldFor(k, purpose, lease.token, row))
    case Submit(r, acceptedAt, runId) =>
      if LocalOf(w, r).Launching? then SubmitStep(w, r, LocalOf(w, r), acceptedAt, runId) else w
    case Lookup(r) =>
      if LocalOf(w, r).Launching? || LocalOf(w, r).LookingUp? then LookupStep(w, r, LocalOf(w, r)) else w
    case Record(r, now) => if LocalOf(w, r).Received? then RecordStep(w, r, LocalOf(w, r), now) else w
    case SubmitFails(r) =>
      var l := LocalOf(w, r);
      if l.Launching? then At(w, w.db, r, SubmitCounted(l.k, l.token, Budget(w.db, l.k.job, Submission))) else w
    case RecordSubmitFails(r, nextAt, failure) =>
      var l := LocalOf(w, r);
      if l.SubmitCounted? && l.count + 1 <= MaxRetries(w.db, l.k.job)
      then Called(w, r, RecordSubmitFailure(l.k, l.token, Some(nextAt), failure), Idle) else w
    case PollLive(r, status, stage, retryStage, nextAt, note) =>
      var l := LocalOf(w, r);
      if l.Polling? && !Terminal(status)
      then Called(w, r, RecordPollStatus(l.k, l.token, status, stage, Poll(retryStage), false, Some(nextAt), None,
                                         note, None), Idle) else w
    case PollSucceeds(r, stage, retryStage, now, result) =>
      var l := LocalOf(w, r);
      if l.Polling?
      then Called(w, r, RecordPollStatus(l.k, l.token, XSucceeded, stage, Poll(retryStage), false, None, Some(now),
                                         None, Some(result)),
                  Polled(l.k, Succeeded, Failure("", "external execution succeeded"), stage)) else w
    case PollCanceled(r, stage, retryStage, now) =>
      var l := LocalOf(w, r);
      if l.Polling?
      then Called(w, r, RecordPollStatus(l.k, l.token, XCanceled, stage, Poll(retryStage), false, None, Some(now),
                                         None, None),
                  Polled(l.k, Canceled, Failure("", "external execution canceled"), stage)) else w
    case PollReports(r, report) =>
      var l := LocalOf(w, r);
      if l.Polling? then At(w, w.db, r,
                            PollCounted(l.k, l.token, report, Budget(w.db, l.k.job, Poll(report.stage)))) else w
    case RecordReport(r, stage, nextAt, now) => if LocalOf(w, r).PollCounted?
      then ReportStep(w, r, LocalOf(w, r), stage, nextAt, now) else w
    case PollRaises(r) =>
      var l := LocalOf(w, r);
      if l.Polling? then At(w, w.db, r, PollRefused(l.k, l.token, l.row, Budget(w.db, l.k.job, l.row.retryStage)))
        else w
    case RecordRaise(r, transient, failure, nextAt, now) =>
      if LocalOf(w, r).PollRefused? then RaiseStep(w, r, LocalOf(w, r), transient, failure, nextAt, now) else w
    case ApplyOutcome(r, now, intact) =>
      var l := LocalOf(w, r);
      if l.Polled? then MoveJob(w, r, l.k, Running, l.target, l.failure, l.stage, now, intact, Idle) else w
    case Retry(r, now, intact) =>
      var l := LocalOf(w, r);
      if l.Requeueing?
      then MoveJob(w, r, l.k, FailedRetryable, Queued, Failure("", "job retry requested through Worker API"), None,
                   now, intact, Requeued(l.k, l.token))
      else w
    case Consume(r) =>
      var l := LocalOf(w, r);
      if l.Requeued? then Called(w, r, MarkRetryConsumed(l.k, l.token), Idle) else w
    case Finalize(r, now, intact) => if LocalOf(w, r).Finalizing?
      then FinalizeStep(w, r, LocalOf(w, r), now, intact) else w
    case CancelRun(r) => if LocalOf(w, r).CancelBegun? then CancelStep(w, r, LocalOf(w, r)) else w
    case CancelFails(r) =>
      var l := LocalOf(w, r);
      if l.CancelBegun? then At(w, w.db, r, CancelCounted(l.k, l.token, Budget(w.db, l.k.job, CancelStage))) else w
    case RecordCancelFails(r, retryAt, failure) =>
      var l := LocalOf(w, r);
      if l.CancelCounted? && l.count + 1 <= MaxRetries(w.db, l.k.job)
      then Called(w, r, RecordCancelFailure(l.k, l.token, retryAt, failure), Idle) else w
    case RecordCanceled(r, now) =>
      var l := LocalOf(w, r);
      if l.CancelConfirmed? then Called(w, r, RecordRemoteCanceled(l.k, l.token, now), Idle) else w
  }

  ghost function RunAll(w: World, steps: seq<Step>): World
    decreases |steps|
  {
    if steps == [] then w else Next(RunAll(w, steps[..|steps| - 1]), steps[|steps| - 1])
  }
}
