/**
 Publishing a success. The runner that polled it records the result, moves the job, publishes the
 bundle and binds the manifest, with the result in memory. A runner that finds the recorded row
 later claims it, decodes the stored bytes, does what is left and gives the lease back. Crashing
 anywhere and recovering any number of times ends where the uninterrupted poll ends. Every step here
 is made of steps of `RunnerProtocol`, on the same tables.
 */
module SuccessPath {
  import opened Texts
  import opened RunnerTables
  import opened RunnerFencing
  import opened JobService
  import opened RunnerProtocol
  import opened ExecutionResults
  import RunnerAccounts
  import RunnerAgreement
  import RunnerBudgets
  import RunnerRetries
  import RunnerRows

  /** A published directory: the result and the job columns that its manifest freezes. */
  datatype Bundle = Bundle(
    result: ExecutionResult, attempt: int, approval: Option<Window>, started: Option<Time>, finished: Option<Time>,
    createdAt: Time)

  /** The encoder's rules, the check of a result's usage against the plan, and SHA-256. */
  datatype Host = Host(rules: Rules, usageOk: ExecutionResult -> bool, sha: string -> string)

  datatype Phase = Moving | Publishing | Binding | Releasing

  /** What runner 0 holds beside its protocol state: the result it is working on, and whether it got
      it from the stored row. `Failed` stands for every raise on the path. */
  datatype Task = NoTask | Working(k: RunKey, result: ExecutionResult, phase: Phase, recovering: bool) | Failed

  datatype Site = Site(w: World, bundles: map<JobKey, Bundle>, task: Task)

  datatype Move =
    | RecordResult(stage: Option<Stage>, retryStage: string, now: Time, result: ExecutionResult)
    | ClaimRow(k: RunKey, state: JobState, now: Time, lease: Lease)
    | DecodeRow
    | SucceedJob(now: Time)
    | PublishBundle(now: Time)
    | BindPath(path: string)
    | GiveBack
    | Die

  function Manifest(j: Job, result: ExecutionResult, createdAt: Time): Bundle {
    Bundle(result, j.attempt, j.approval, j.started, j.finished, createdAt)
  }

  // ---- The steps, in terms of the protocol --------------------------------------------------------------------------

  /** The stored form of a result that passed its checks. */
  ghost function Stored(host: Host, result: ExecutionResult): Option<Payload> {
    var text :- ResultBytes(host.rules, result);
    if host.usageOk(result) then Some(Payload(text, host.sha(text))) else None
  }

  /** `_finalize_claimed_terminal` up to the job: recheck the row, rehash and decode the result. */
  ghost function DecodedRow(host: Host, db: Db, k: RunKey, row: Run): Option<ExecutionResult> {
    if || row.ext.None? || row.executor != Some(EXECUTOR) || row.status != Some(XSucceeded) || row.result.None?
       || !ProvenanceOk(PaidWindow(db, k.job), row.submittedAt, row.ext.value.acceptedAt, row.ext.value.observedAt)
       || host.sha(row.result.value.json) != row.result.value.hash
    then None
    else
      var result :- ResultFromBytes(host.rules, row.result.value.json);
      if host.usageOk(result) then Some(result) else None
  }

  /** `write_bundle`: publish once by a rename that never replaces, or verify what is there. */
  function Published(bundles: map<JobKey, Bundle>, key: JobKey, j: Job, result: ExecutionResult,
                     now: Time): Option<map<JobKey, Bundle>>
  {
    if key in bundles then
      if bundles[key] == Manifest(j, result, bundles[key].createdAt) then Some(bundles) else None
    else if j.finished.None? || now < j.finished.value then None
    else Some(bundles[key := Manifest(j, result, now)])
  }

  /** The published manifest names the job as it is now. */
  predicate Verified(bundles: map<JobKey, Bundle>, key: JobKey, j: Job) {
    key in bundles && bundles[key] == Manifest(j, bundles[key].result, bundles[key].createdAt)
  }

  /** The protocol steps that a move takes. */
  ghost function Protocol(host: Host, site: Site, m: Move): seq<Step> {
    var l, task, db := LocalOf(site.w, 0), site.task, site.w.db;
    match m
    case RecordResult(stage, retryStage, now, result) =>
      if task.NoTask? && l.Polling? && Stored(host, result).Some?
      then [PollSucceeds(0, stage, retryStage, now, Stored(host, result).value)] else []
    case ClaimRow(k, state, now, lease) => if task.NoTask? && l.Idle?
      then [ClaimRun(0, k, ForFinalize(state), now, lease)] else []
    case SucceedJob(now) =>
      if !task.Working? || !task.phase.Moving? || task.k.job !in db.jobs then []
      else if !task.recovering then [ApplyOutcome(0, now, true)]
      else if db.jobs[task.k.job].state.Succeeded? then [] else [Finalize(0, now, true)]
    case BindPath(path) =>
      if task.Working? && task.phase.Binding? && task.k.job in db.jobs
      then [Service(OpBindManifest(task.k.job, path, Verified(site.bundles, task.k.job, db.jobs[task.k.job])))] else []
    case GiveBack =>
      if task.Working? && task.phase.Releasing? && l.Finalizing?
      then [Housekeep(ReleaseLease(l.k, l.token)), Crash(0)] else []
    case Die => [Crash(0)]
    case _ => []
  }

  ghost function Steps(w: World, steps: seq<Step>): World
    decreases |steps|
  {
    if steps == [] then w else Steps(Next(w, steps[0]), steps[1..])
  }

  /** The task after a move whose protocol steps led to `w`. */
  ghost function TaskAfter(host: Host, site: Site, m: Move, w: World): Task {
    var l, task := LocalOf(site.w, 0), site.task;
    match m
    case RecordResult(_, _, _, result) =>
      if Protocol(host, site, m) == [] then task
      else if LocalOf(w, 0).Polled? then Working(l.k, result, Moving, false) else Failed
    case DecodeRow =>
      if !task.NoTask? || !l.Finalizing? then task
      else
        var result := DecodedRow(host, site.w.db, l.k, l.row);
        if result.None? then Failed else Working(l.k, result.value, Moving, true)
    case SucceedJob(_) =>
      if !task.Working? || !task.phase.Moving? then task
      else if task.k.job in w.db.jobs && w.db.jobs[task.k.job].state.Succeeded? then task.(phase := Publishing)
        else Failed
    case PublishBundle(now) =>
      if !task.Working? || !task.phase.Publishing? then task
      else if task.k.job !in w.db.jobs
        || Published(site.bundles, task.k.job, w.db.jobs[task.k.job], task.result, now).None? then Failed
      else task.(phase := Binding)
    case BindPath(path) =>
      if !task.Working? || !task.phase.Binding? then task
      else if task.k.job !in w.db.jobs || w.db.jobs[task.k.job].artifact != Some(path) then Failed
      else if task.recovering then task.(phase := Releasing) else NoTask
    case GiveBack => if Protocol(host, site, m) == [] then task else NoTask
    case Die => NoTask
    case ClaimRow(_, _, _, _) => task
  }

  ghost function Do(host: Host, site: Site, m: Move): Site {
    var w, task := Steps(site.w, Protocol(host, site, m)), site.task;
    var bundles :=
      if m.PublishBundle? && task.Working? && task.phase.Publishing? && task.k.job in w.db.jobs then
        var more := Published(site.bundles, task.k.job, w.db.jobs[task.k.job], task.result, m.now);
        if more.Some? then more.value else site.bundles
      else site.bundles;
    Site(w, bundles, TaskAfter(host, site, m, w))
  }

  ghost function DoAll(host: Host, site: Site, moves: seq<Move>): Site
    decreases |moves|
  {
    if moves == [] then site else Do(host, DoAll(host, site, moves[..|moves| - 1]), moves[|moves| - 1])
  }

  // ---- Where a site can be ------------------------------------------------------------------------------------------

  /** A poll about to record a success, and what it records. */
  datatype Start = Start(
    w: World, bundles: map<JobKey, Bundle>, k: RunKey, token: string, row: Run, stage: Option<Stage>,
    retryStage: string, now: Time,
    result: ExecutionResult, payload: Payload, path: string)

  function RecordCall(s: Start): Call {
    RecordPollStatus(s.k, s.token, XSucceeded, s.stage, Poll(s.retryStage), false, None, Some(s.now), None,
                     Some(s.payload))
  }

  /** The recording matches, and the job is running under its approval with nothing published. */
  ghost predicate Ready(host: Host, s: Start): (ready: bool)
    ensures ready ==> s.k in s.w.db.runs && s.k.job in s.w.db.jobs
  {
    && LocalOf(s.w, 0) == Polling(s.k, s.token, s.row) && Stored(host, s.result) == Some(s.payload)
    && Apply(s.w.db, RecordCall(s)).1.Yes? && s.k in s.w.db.runs && !Blank(s.stage)
    && s.k.job in s.w.db.jobs && s.k.job !in s.bundles
    && var r, j := s.w.db.runs[s.k], s.w.db.jobs[s.k.job];
       && j.state.Running? && j.attempt == s.k.attempt && j.approval.Some? && !j.superseded && j.artifact.None?
          && j.finished.None?
       && RowOk(s.k, r) && r.result.None? && r.ext.Some? && r.executor == Some(EXECUTOR)
       && ProvenanceOk(j.approval, r.submittedAt, r.ext.value.acceptedAt, r.ext.value.observedAt)
  }

  /** Every run of the protocol with one runner that comes to such a recording is ready: the shape of
      the row, its provenance, and the approval and attempt of the job follow from the run itself. */
  lemma ReadyInRuns(host: Host, steps: seq<Step>, s: Start)
    requires forall i :: 0 <= i < |steps| ==> RunnerRetries.Solo(steps[i])
    requires s.w == RunAll(START, steps) && LocalOf(s.w, 0) == Polling(s.k, s.token, s.row)
    requires Stored(host, s.result) == Some(s.payload) && Apply(s.w.db, RecordCall(s)).1.Yes?
    requires !Blank(s.stage) && s.k.job !in s.bundles
    requires s.k.job in s.w.db.jobs && s.w.db.jobs[s.k.job].state.Running?
    ensures Ready(host, s)
  {
    hide Next, Apply, Stored, ProvenanceOk, RowOk, KeyText, Open, Blank, RunnerRows.Shaped;
    PollingCurrent(steps, s.k);
    RunnerRows.RunsShaped(steps);
    RunnerAgreement.RecheckPasses(steps, s.k);
    RunnerBudgets.PollStatusRow(s.w.db, RecordCall(s));
    ShapedRow(s.w.db, s.k);
  }

  lemma PollingCurrent(steps: seq<Step>, k: RunKey)
    requires forall i :: 0 <= i < |steps| ==> RunnerRetries.Solo(steps[i])
    requires var l := LocalOf(RunAll(START, steps), 0); l.Polling? && l.k == k
    ensures var db := RunAll(START, steps).db; k.job in db.jobs ==> db.jobs[k.job].attempt == k.attempt
  {
    hide Next, RunnerAccounts.AllGuarded, LocalOf;
    RunnerRetries.SoloIsGuarded(steps);
  }

  lemma ShapedRow(db: Db, k: RunKey)
    requires
      && RunnerRows.Shaped(db) && k in db.runs && Open(db.runs[k]) && k.job in db.jobs && db.jobs[k.job].state.Running?
    ensures var r, j := db.runs[k], db.jobs[k.job];
      && j.approval.Some? && !j.superseded && j.artifact.None? && j.finished.None?
      && RowOk(k, r) && r.result.None? && r.ext.Some? && r.executor == Some(EXECUTOR)
  {
    hide KeyText;
    assert RunnerRows.Tidy(db.runs[k]) && RowOk(k, db.runs[k]) && RunnerRows.Unfinished(db.jobs[k.job]);
  }

  /** What runner 0 is doing: nothing, the tail of the poll, or a recovery. */
  datatype Control =
    | Resting(lease: Option<Lease>) | Tail(phase: Phase) | Claimed(held: Lease) | Recovering(phase: Phase, held: Lease)

  function LeaseOn(c: Control): Option<Lease> {
    match c
    case Resting(lease) => lease
    case Tail(_) => None
    case Claimed(held) => Some(held)
    case Recovering(_, held) => Some(held)
  }

  function RowAt(s: Start, lease: Option<Lease>): Run
    requires s.k in s.w.db.runs
  {
    After(RecordCall(s), s.w.db.runs[s.k]).(lease := lease)
  }

  function JobAt(s: Start, n: nat, f: Time): Job
    requires s.k.job in s.w.db.jobs
  {
    var j := s.w.db.jobs[s.k.job];
    if n <= 1 then j
    else
      j.(state := Succeeded, finished := Some(f), stage := Coalesce(s.stage, j.stage),
         artifact := if n >= 4 then Some(s.path) else None)
  }

  /** The tables after `n` of the four transactions: record, move, publish, bind. */
  function DbAt(s: Start, n: nat, f: Time, lease: Option<Lease>): Db
    requires s.k in s.w.db.runs && s.k.job in s.w.db.jobs
  {
    var db := s.w.db.(runs := s.w.db.runs[s.k := RowAt(s, lease)]);
    if n <= 1 then db
    else Logged(db.(jobs := db.jobs[s.k.job := JobAt(s, n, f)]), s.k.job, Some(Running), Succeeded)
  }

  function BundlesAt(s: Start, n: nat, f: Time, c: Time): map<JobKey, Bundle>
    requires s.k.job in s.w.db.jobs
  {
    if n <= 2 then s.bundles else s.bundles[s.k.job := Manifest(JobAt(s, n, f), s.result, c)]
  }

  function LocalAt(s: Start, control: Control): Local
    requires s.k in s.w.db.runs
  {
    match control
    case Resting(_) => Idle
    case Tail(phase) =>
      if phase.Moving? then Polled(s.k, Succeeded, Failure("", "external execution succeeded"), s.stage) else Idle
    case Claimed(held) => Finalizing(s.k, held.token, RowAt(s, Some(held)))
    case Recovering(_, held) => Finalizing(s.k, held.token, RowAt(s, Some(held)))
  }

  function TaskAt(s: Start, control: Control): Task {
    match control
    case Resting(_) => NoTask
    case Tail(phase) => Working(s.k, s.result, phase, false)
    case Claimed(_) => NoTask
    case Recovering(phase, _) => Working(s.k, s.result, phase, true)
  }

  function SiteAt(s: Start, n: nat, f: Time, c: Time, control: Control): Site
    requires s.k in s.w.db.runs && s.k.job in s.w.db.jobs
  {
    Site(World(DbAt(s, n, f, LeaseOn(control)), s.w.provider, s.w.runners[0 := LocalAt(s, control)]),
         BundlesAt(s, n, f, c), TaskAt(s, control))
  }

  /** How far the transactions are when the runner is in this phase. */
  predicate Fits(n: nat, control: Control) {
    && 1 <= n <= 4
    && match control
       case Resting(_) => true
       case Claimed(_) => true
       case Tail(phase) =>
         if phase.Moving? then n == 1 else if phase.Publishing? then n == 2 else phase.Binding? && n == 3
       case Recovering(phase, _) =>
         if phase.Moving? then true else if phase.Publishing? then n >= 2 else if phase.Binding? then n >= 3 else n == 4
  }

  // ---- Each move from each point ------------------------------------------------------------------------------------

  function TimeOf(m: Move, last: Time): Time {
    match m
    case RecordResult(_, _, now, _) => now
    case ClaimRow(_, _, now, _) => now
    case SucceedJob(now) => now
    case PublishBundle(now) => now
    case _ => last
  }

  lemma OneStep(w: World, step: Step)
    ensures Steps(w, [step]) == Next(w, step)
  {
    hide Next;
    assert Steps(Next(w, step), []) == Next(w, step);
  }

  /** The record transaction, and the row it leaves. */
  lemma RecordApplies(host: Host, s: Start)
    requires Ready(host, s)
    ensures Apply(s.w.db, RecordCall(s)) == (DbAt(s, 1, s.now, None), Yes)
    ensures RowOk(s.k, RowAt(s, None))
  {
    hide ProvenanceOk, Stored, Matches, RowOk, ResultBytes;
    assert s.w.db.runs[s.k].result.None?;
    assert After(RecordCall(s), s.w.db.runs[s.k]).lease.None?;
  }

  /** The poll records the result. */
  lemma RecordAt(host: Host, s: Start)
    requires Ready(host, s)
    ensures Do(host, Site(s.w, s.bundles, NoTask), RecordResult(s.stage, s.retryStage, s.now, s.result))
         == SiteAt(s, 1, s.now, s.now, Tail(Moving))
  {
    hide Apply, DbAt, ProvenanceOk, Stored, RowOk, Published, DecodedRow;
    RecordApplies(host, s);
    OneStep(s.w, PollSucceeds(0, s.stage, s.retryStage, s.now, s.payload));
  }

  /** Moving the running job succeeds under every later lease. */
  lemma TransitionAt(host: Host, s: Start, f: Time, lease: Option<Lease>, now: Time, reason: Failure)
    requires Ready(host, s)
    ensures Transition(DbAt(s, 1, f, lease), s.k.job, Running, Succeeded, reason, false, s.stage, now,
                       true) == (DbAt(s, 2, now, lease), Yes)
  {
    hide ProvenanceOk, Stored, RowOk, Apply, RowAt, CreatorBusy, Blank;
  }

  lemma SucceedTail(host: Host, s: Start, f: Time, c: Time, now: Time)
    requires Ready(host, s)
    ensures Do(host, SiteAt(s, 1, f, c, Tail(Moving)), SucceedJob(now)) == SiteAt(s, 2, now, c, Tail(Publishing))
  {
    hide Apply, DbAt, ProvenanceOk, Stored, RowOk, Published, DecodedRow, Transition, Ready;
    TransitionAt(host, s, f, None, now, Failure("", "external execution succeeded"));
    OneStep(SiteAt(s, 1, f, c, Tail(Moving)).w, ApplyOutcome(0, now, true));
    StateAt(host, s, 1, f, None);
    StateAt(host, s, 2, now, None);
  }

  /** The job at each point. */
  lemma StateAt(host: Host, s: Start, n: nat, f: Time, lease: Option<Lease>)
    requires Ready(host, s)
    ensures var db := DbAt(s, n, f, lease);
      && s.k.job in db.jobs && db.jobs[s.k.job] == JobAt(s, n, f) && s.k in db.runs && db.runs[s.k] == RowAt(s, lease)
      && (JobAt(s, n, f).state.Succeeded? <==> n >= 2) && (JobAt(s, n, f).state.Running? <==> n <= 1)
      && JobAt(s, n, f).approval == s.w.db.jobs[s.k.job].approval
  {
    hide Apply, RowAt, ProvenanceOk, Stored, RowOk;
  }

  /** The recorded row passes every check of a recovery, and decodes to the polled result. */
  lemma RowDecodes(host: Host, s: Start, n: nat, f: Time, lease: Option<Lease>)
    requires Ready(host, s)
    ensures DecodedRow(host, DbAt(s, n, f, lease), s.k, RowAt(s, lease)) == Some(s.result)
    ensures var row := RowAt(s, lease);
      && row.ext.Some? && row.status == Some(XSucceeded) && row.result.Some? && row.stage == s.stage
      && ProvenanceOk(PaidWindow(DbAt(s, n, f, lease), s.k.job), row.submittedAt, row.ext.value.acceptedAt,
                      row.ext.value.observedAt)
  {
    hide DbAt, ResultFromBytes, ResultBytes, RowOk, ProvenanceOk, Apply;
    StateAt(host, s, n, f, lease);
    ResultRoundTrip(host.rules, s.result, s.payload.json);
  }

  lemma DecodeAt(host: Host, s: Start, n: nat, f: Time, c: Time, held: Lease)
    requires Ready(host, s)
    ensures Do(host, SiteAt(s, n, f, c, Claimed(held)), DecodeRow) == SiteAt(s, n, f, c, Recovering(Moving, held))
  {
    hide DbAt, RowAt, Ready, DecodedRow, Next, Stored;
    RowDecodes(host, s, n, f, Some(held));
  }

  lemma SucceedRecovering(host: Host, s: Start, n: nat, f: Time, c: Time, held: Lease, now: Time)
    requires Ready(host, s) && 1 <= n <= 4
    ensures Do(host, SiteAt(s, n, f, c, Recovering(Moving, held)), SucceedJob(now))
         == SiteAt(s, if n >= 2 then n else 2, if n >= 2 then f else now, c, Recovering(Publishing, held))
  {
    hide Apply, DbAt, RowAt, ProvenanceOk, PaidWindow, Stored, RowOk, Published, DecodedRow, Transition, Ready;
    StateAt(host, s, n, f, Some(held));
    StateAt(host, s, 2, now, Some(held));
    RowDecodes(host, s, n, f, Some(held));
    if n == 1 {
      var row := RowAt(s, Some(held));
      TransitionAt(host, s, f, Some(held), now,
                   Failure(if row.errorCode.Some? then row.errorCode.value else "",
                           if row.errorSummary.Some? then row.errorSummary.value else ""));
      OneStep(SiteAt(s, 1, f, c, Recovering(Moving, held)).w, Finalize(0, now, true));
    }
  }

  lemma PublishAt(host: Host, s: Start, n: nat, f: Time, c: Time, control: Control, now: Time)
    requires Ready(host, s) && Fits(n, control) && f <= now
    requires control == Tail(Publishing) || (control.Recovering? && control.phase.Publishing?)
    ensures Do(host, SiteAt(s, n, f, c, control), PublishBundle(now))
         == SiteAt(s, if n >= 3 then n else 3, f, if n >= 3 then c else now, control.(phase := Binding))
  {
    hide DbAt, RowAt, Ready, Stored, Next;
    StateAt(host, s, n, f, LeaseOn(control));
    NotPublished(host, s, n, f, c);
    assert DbAt(s, n, f, LeaseOn(control)) == DbAt(s, if n >= 3 then n else 3, f, LeaseOn(control)) by {
      SameTables(s, n, f, LeaseOn(control));
    }
  }

  /** Publishing changes no table. */
  lemma SameTables(s: Start, n: nat, f: Time, lease: Option<Lease>)
    requires s.k in s.w.db.runs && s.k.job in s.w.db.jobs
    ensures DbAt(s, 2, f, lease) == DbAt(s, 3, f, lease)
  {
  }

  lemma NotPublished(host: Host, s: Start, n: nat, f: Time, c: Time)
    requires Ready(host, s)
    ensures n <= 2 ==> s.k.job !in BundlesAt(s, n, f, c)
  {
  }

  lemma BindAt(host: Host, s: Start, n: nat, f: Time, c: Time, control: Control)
    requires Ready(host, s) && Fits(n, control)
    requires control == Tail(Binding) || (control.Recovering? && control.phase.Binding?)
    ensures Do(host, SiteAt(s, n, f, c, control), BindPath(s.path))
         == SiteAt(s, 4, f, c, if control.Tail? then Resting(None) else Recovering(Releasing, control.held))
  {
    hide DbAt, RowAt, Ready, Stored, BindManifest, Apply, DecodedRow;
    var lease := LeaseOn(control);
    StateAt(host, s, n, f, lease);
    StateAt(host, s, 4, f, lease);
    BoundAt(host, s, n, f, lease);
    OneStep(SiteAt(s, n, f, c, control).w, Service(OpBindManifest(s.k.job, s.path, true)));
  }

  lemma BoundAt(host: Host, s: Start, n: nat, f: Time, lease: Option<Lease>)
    requires Ready(host, s) && 3 <= n <= 4
    ensures BindManifest(DbAt(s, n, f, lease), s.k.job, s.path, true) == (DbAt(s, 4, f, lease), Yes)
  {
    JobUnmoved(host, s, n, f);
    hide RowAt, Stored, ProvenanceOk, RowOk, Apply, Ready;
    StateAt(host, s, n, f, lease);
    var db := s.w.db.(runs := s.w.db.runs[s.k := RowAt(s, lease)]);
    assert db.jobs[s.k.job := JobAt(s, n, f)][s.k.job := JobAt(s, 4, f)] == db.jobs[s.k.job := JobAt(s, 4, f)];
  }

  lemma GiveBackAt(host: Host, s: Start, f: Time, c: Time, held: Lease)
    requires Ready(host, s)
    ensures Do(host, SiteAt(s, 4, f, c, Recovering(Releasing, held)), GiveBack) == SiteAt(s, 4, f, c, Resting(None))
  {
    hide DbAt, RowAt, Ready, Stored, DecodedRow, Apply;
    var site := SiteAt(s, 4, f, c, Recovering(Releasing, held));
    ReleaseApplies(host, s, 4, f, held);
    var call := ReleaseLease(s.k, held.token);
    assert Steps(site.w, [Housekeep(call), Crash(0)]) == Next(Next(site.w, Housekeep(call)), Crash(0)) by {
      OneStep(Next(site.w, Housekeep(call)), Crash(0));
      assert [Housekeep(call), Crash(0)][1..] == [Crash(0)];
    }
  }

  lemma ReleaseApplies(host: Host, s: Start, n: nat, f: Time, held: Lease)
    requires Ready(host, s)
    ensures Apply(DbAt(s, n, f, Some(held)), ReleaseLease(s.k, held.token)) == (DbAt(s, n, f, None), Yes)
  {
    LeaseOnly(host, s, n, f, Some(held), None);
    hide UpdateOk, DbAt, RowAt, Ready, Apply, JobAt;
    StateAt(host, s, n, f, Some(held));
    StatementApplied(DbAt(s, n, f, Some(held)), ReleaseLease(s.k, held.token));
  }

  /** Changing the lease of the recorded row violates nothing. */
  lemma LeaseOnly(host: Host, s: Start, n: nat, f: Time, a: Option<Lease>, b: Option<Lease>)
    requires Ready(host, s)
    ensures var db := DbAt(s, n, f, a);
      && s.k in db.runs && RowAt(s, a).(lease := b) == RowAt(s, b) && RowAt(s, a).lease == a
      && UpdateOk(db.runs, s.k, RowAt(s, a), RowAt(s, b))
      && db.(runs := db.runs[s.k := RowAt(s, b)]) == DbAt(s, n, f, b)
  {
    hide ProvenanceOk, Stored, Apply, After, DbAt, KeyText, Unowned;
    RecordApplies(host, s);
    RowReplaced(s, n, f, a, b);
    assert RowOk(s.k, RowAt(s, None)) ==> RowOk(s.k, RowAt(s, b));
  }

  lemma RowReplaced(s: Start, n: nat, f: Time, a: Option<Lease>, b: Option<Lease>)
    requires s.k in s.w.db.runs && s.k.job in s.w.db.jobs
    ensures var db := DbAt(s, n, f, a); s.k in db.runs && db.(runs := db.runs[s.k := RowAt(s, b)]) == DbAt(s, n, f, b)
  {
    hide RowAt;
  }

  lemma ClaimAt(host: Host, s: Start, n: nat, f: Time, c: Time, lease: Option<Lease>, state: JobState, now: Time,
                held: Lease)
    requires Ready(host, s)
    ensures var t := Do(host, SiteAt(s, n, f, c, Resting(lease)), ClaimRow(s.k, state, now, held));
      && (t == SiteAt(s, n, f, c, Resting(lease)) || t == SiteAt(s, n, f, c, Claimed(held)))
      && ((lease.None? || lease.value.expires <= now) && state == (if n >= 2 then Succeeded else Running)
          ==> t == SiteAt(s, n, f, c, Claimed(held)))
  {
    hide DbAt, RowAt, Ready, Stored, DecodedRow, Apply;
    var site := SiteAt(s, n, f, c, Resting(lease));
    ClaimApplies(host, s, n, f, lease, state, now, held);
    StateAt(host, s, n, f, Some(held));
    OneStep(site.w, ClaimRun(0, s.k, ForFinalize(state), now, held));
  }

  lemma ClaimApplies(host: Host, s: Start, n: nat, f: Time, lease: Option<Lease>, state: JobState, now: Time,
                     held: Lease)
    requires Ready(host, s)
    ensures var out := Apply(DbAt(s, n, f, lease), ClaimFor(s.k, ForFinalize(state), now, held));
      && (out == (DbAt(s, n, f, lease), No) || out == (DbAt(s, n, f, Some(held)), Yes))
      && ((lease.None? || lease.value.expires <= now) && state == (if n >= 2 then Succeeded else Running) ==>
            out.1.Yes?)
  {
    LeaseOnly(host, s, n, f, lease, Some(held));
    StateAt(host, s, n, f, lease);
    RowDecodes(host, s, n, f, lease);
    JobUnmoved(host, s, n, f);
    StatementApplied(DbAt(s, n, f, lease), ClaimFor(s.k, ForFinalize(state), now, held));
    hide UpdateOk, DbAt, RowAt, Ready, Apply, JobAt;
  }

  lemma JobUnmoved(host: Host, s: Start, n: nat, f: Time)
    requires Ready(host, s)
    ensures JobAt(s, n, f).attempt == s.k.attempt && !JobAt(s, n, f).superseded
  {
  }

  lemma DieAt(host: Host, s: Start, n: nat, f: Time, c: Time, control: Control)
    requires Ready(host, s)
    ensures Do(host, SiteAt(s, n, f, c, control), Die) == SiteAt(s, n, f, c, Resting(LeaseOn(control)))
  {
    hide DbAt, RowAt, Ready, Stored, DecodedRow;
    OneStep(SiteAt(s, n, f, c, control).w, Crash(0));
  }

  // ---- Whole runs ---------------------------------------------------------------------------------------------------

  /** A move that is not enabled changes nothing. */
  lemma IdleMove(host: Host, s: Start, n: nat, f: Time, c: Time, control: Control, m: Move)
    requires Ready(host, s)
    requires match m
      case RecordResult(_, _, _, _) => true
      case ClaimRow(_, _, _, _) => !control.Resting?
      case DecodeRow => !control.Claimed?
      case SucceedJob(_) => !(control.Tail? || control.Recovering?) || !control.phase.Moving?
      case PublishBundle(_) => !(control.Tail? || control.Recovering?) || !control.phase.Publishing?
      case BindPath(_) => !(control.Tail? || control.Recovering?) || !control.phase.Binding?
      case GiveBack => !(control.Tail? || control.Recovering?) || !control.phase.Releasing?
      case Die => false
    ensures Do(host, SiteAt(s, n, f, c, control), m) == SiteAt(s, n, f, c, control)
  {
    hide DbAt, RowAt, BundlesAt, Ready, Stored, DecodedRow, Next, Published;
    var site := SiteAt(s, n, f, c, control);
    assert Steps(site.w, []) == site.w;
  }

  /** One runner works on this job alone, and always binds the path that belongs to it. */
  predicate Usual(s: Start, m: Move) {
    (m.ClaimRow? ==> m.k == s.k) && (m.BindPath? ==> m.path == s.path)
  }

  lemma MoveAt(host: Host, s: Start, n: nat, f: Time, c: Time, control: Control, m: Move, last: Time)
    returns (n': nat, f': Time, c': Time, control': Control)
    requires Ready(host, s) && Fits(n, control) && Usual(s, m) && f <= last <= TimeOf(m, last)
    ensures Do(host, SiteAt(s, n, f, c, control), m) == SiteAt(s, n', f', c', control')
    ensures Fits(n', control') && n <= n' && f' <= TimeOf(m, last)
    ensures n >= 2 ==> f' == f
    ensures n >= 3 ==> c' == c
  {
    hide Do, SiteAt, Ready;
    n', f', c', control' := n, f, c, control;
    match m
    case Die =>
      DieAt(host, s, n, f, c, control);
      control' := Resting(LeaseOn(control));
    case ClaimRow(_, state, now, held) =>
      if control.Resting? {
        ClaimAt(host, s, n, f, c, control.lease, state, now, held);
        if Do(host, SiteAt(s, n, f, c, control), m) != SiteAt(s, n, f, c, control) {
          control' := Claimed(held);
        }
      } else {
        IdleMove(host, s, n, f, c, control, m);
      }
    case DecodeRow =>
      if control.Claimed? {
        DecodeAt(host, s, n, f, c, control.held);
        control' := Recovering(Moving, control.held);
      } else {
        IdleMove(host, s, n, f, c, control, m);
      }
    case SucceedJob(now) =>
      if control == Tail(Moving) {
        SucceedTail(host, s, f, c, now);
        n', f', control' := 2, now, Tail(Publishing);
      } else if control.Recovering? && control.phase.Moving? {
        SucceedRecovering(host, s, n, f, c, control.held, now);
        n', f', control' := if n >= 2 then n else 2, if n >= 2 then f else now, Recovering(Publishing, control.held);
      } else {
        IdleMove(host, s, n, f, c, control, m);
      }
    case PublishBundle(now) =>
      if control == Tail(Publishing) || (control.Recovering? && control.phase.Publishing?) {
        PublishAt(host, s, n, f, c, control, now);
        n', c', control' := if n >= 3 then n else 3, if n >= 3 then c else now, control.(phase := Binding);
      } else {
        IdleMove(host, s, n, f, c, control, m);
      }
    case BindPath(_) =>
      if control == Tail(Binding) || (control.Recovering? && control.phase.Binding?) {
        BindAt(host, s, n, f, c, control);
        n', control' := 4, if control.Tail? then Resting(None) else Recovering(Releasing, control.held);
      } else {
        IdleMove(host, s, n, f, c, control, m);
      }
    case GiveBack =>
      if control.Recovering? && control.phase.Releasing? {
        GiveBackAt(host, s, f, c, control.held);
        control' := Resting(None);
      } else {
        IdleMove(host, s, n, f, c, control, m);
      }
    case RecordResult(_, _, _, _) => IdleMove(host, s, n, f, c, control, m);
  }

  /** The clock after these moves, and whether it only went forward. */
  function LastTime(s: Start, moves: seq<Move>): Time {
    if moves == [] then s.now else TimeOf(moves[|moves| - 1], LastTime(s, moves[..|moves| - 1]))
  }

  ghost predicate InOrder(s: Start, moves: seq<Move>)
    decreases |moves|
  {
    moves == []
    || (var n := |moves| - 1;
        InOrder(s, moves[..n]) && Usual(s, moves[n])
          && LastTime(s, moves[..n]) <= TimeOf(moves[n], LastTime(s, moves[..n])))
  }

  /** The poll up to its record transaction. */
  ghost function RecordedSite(host: Host, s: Start): Site {
    Do(host, Site(s.w, s.bundles, NoTask), RecordResult(s.stage, s.retryStage, s.now, s.result))
  }

  lemma {:induction false} RunsAt(host: Host, s: Start, moves: seq<Move>)
    returns (n: nat, f: Time, c: Time, control: Control)
    requires Ready(host, s) && InOrder(s, moves)
    ensures DoAll(host, RecordedSite(host, s), moves) == SiteAt(s, n, f, c, control)
    ensures Fits(n, control) && f <= LastTime(s, moves)
    decreases |moves|
  {
    hide Do, SiteAt, Ready;
    if moves == [] {
      RecordAt(host, s);
      n, f, c, control := 1, s.now, s.now, Tail(Moving);
    } else {
      var m := |moves| - 1;
      n, f, c, control := RunsAt(host, s, moves[..m]);
      n, f, c, control := MoveAt(host, s, n, f, c, control, moves[m], LastTime(s, moves[..m]));
    }
  }

  /** What a run leaves for the job, but for the times written and a lease on the row. */
  datatype Outcome = Outcome(db: Db, bundle: Option<Bundle>)

  function OutcomeOf(site: Site, k: RunKey): Outcome {
    var db := site.w.db;
    Outcome(
      if k !in db.runs || k.job !in db.jobs then db
      else db.(runs := db.runs[k := db.runs[k].(lease := None)],
               jobs := db.jobs[k.job := db.jobs[k.job].(finished := None)]),
      if k.job in site.bundles then Some(site.bundles[k.job].(finished := None, createdAt := 0)) else None)
  }

  /** The run row of the job, or nothing. */
  function RowOf(site: Site, k: RunKey): Option<Run> {
    if k in site.w.db.runs then Some(site.w.db.runs[k]) else None
  }

  predicate Bound(site: Site, k: RunKey) {
    k in site.w.db.runs && k.job in site.w.db.jobs && site.w.db.jobs[k.job].artifact.Some?
  }

  lemma OutcomeAt(host: Host, s: Start, n: nat, f: Time, c: Time, control: Control)
    requires Ready(host, s) && Fits(n, control)
    ensures Bound(SiteAt(s, n, f, c, control), s.k) <==> n == 4
    ensures n == 4 ==> OutcomeOf(SiteAt(s, n, f, c, control), s.k) == OutcomeOf(SiteAt(s, 4, 0, 0, Resting(None)), s.k)
    ensures RowOf(SiteAt(s, n, f, c, control), s.k) == Some(RowAt(s, LeaseOn(control)))
  {
    hide Apply, After, Stored, ProvenanceOk, RowOk;
    var a, b := SiteAt(s, n, f, c, control), SiteAt(s, 4, 0, 0, Resting(None));
    if n == 4 {
      assert OutcomeOf(a, s.k).db.runs == OutcomeOf(b, s.k).db.runs;
      assert OutcomeOf(a, s.k).db.jobs == OutcomeOf(b, s.k).db.jobs;
    }
  }

  /** The poll that nothing interrupts. */
  ghost function Straight(host: Host, s: Start, t: Time): Site {
    DoAll(host, RecordedSite(host, s), [SucceedJob(t), PublishBundle(t), BindPath(s.path)])
  }

  lemma StraightAt(host: Host, s: Start, t: Time)
    requires Ready(host, s) && s.now <= t
    ensures Straight(host, s, t) == SiteAt(s, 4, t, t, Resting(None))
  {
    hide Do, SiteAt, Ready;
    RecordAt(host, s);
    SucceedTail(host, s, s.now, s.now, t);
    PublishAt(host, s, 2, t, s.now, Tail(Publishing), t);
    BindAt(host, s, 3, t, t, Tail(Binding));
    var site, a, b, c := RecordedSite(host, s), SucceedJob(t), PublishBundle(t), BindPath(s.path);
    assert [a, b, c][..2] == [a, b] && [a, b][..1] == [a] && [a][..0] == [];
    assert DoAll(host, site, [a]) == Do(host, site, a);
    assert DoAll(host, site, [a, b]) == Do(host, Do(host, site, a), b);
  }

  /** Once the result is recorded, whatever crashes, claims and recoveries follow: nothing on the path
      ever raises, and once the manifest is bound the run row, the job, its log, the budgets and the
      bundle are those of the uninterrupted poll, up to the times written. The row itself is the same
      exactly when no lease is left on it. */
  lemma CrashesDoNotMatter(host: Host, s: Start, moves: seq<Move>, t: Time)
    requires Ready(host, s) && InOrder(s, moves) && s.now <= t
    ensures var site, straight := DoAll(host, RecordedSite(host, s), moves), Straight(host, s, t);
      && site.task != Failed && straight.task == NoTask && Bound(straight, s.k)
      && (Bound(site, s.k) ==>
            && OutcomeOf(site, s.k) == OutcomeOf(straight, s.k)
            && (RowOf(site, s.k) == RowOf(straight, s.k) <==>
                  RowOf(site, s.k).Some? && RowOf(site, s.k).value.lease.None?))
  {
    hide Do, DoAll, Ready, OutcomeOf, Bound, RecordedSite, Straight, DbAt;
    var n, f, c, control := RunsAt(host, s, moves);
    StraightAt(host, s, t);
    OutcomeAt(host, s, n, f, c, control);
    OutcomeAt(host, s, 4, t, t, Resting(None));
  }

  /** A crash, and the recovery that claims the row afterwards. */
  ghost function Recovered(host: Host, site: Site, k: RunKey, path: string, now: Time, held: Lease): Site {
    var state := if k.job in site.w.db.jobs && site.w.db.jobs[k.job].state.Succeeded? then Succeeded else Running;
    DoAll(host, Do(host, site, Die),
          [ClaimRow(k, state, now, held), DecodeRow, SucceedJob(now), PublishBundle(now), BindPath(path), GiveBack])
  }

  /** From wherever the runner crashed, the next recovery runs through as soon as the lease on the row
      has expired, gives its own lease back, and so ends in the very row of the uninterrupted poll. */
  lemma RecoveryCompletes(host: Host, s: Start, moves: seq<Move>, now: Time, held: Lease, t: Time)
    requires Ready(host, s) && InOrder(s, moves) && LastTime(s, moves) <= now && s.now <= t
    requires var row := RowOf(DoAll(host, RecordedSite(host, s), moves), s.k); row.Some? && LeaseFree(row.value, now)
    ensures var end := Recovered(host, DoAll(host, RecordedSite(host, s), moves), s.k, s.path, now, held);
      && end.task == NoTask && LocalOf(end.w, 0).Idle? && Bound(end, s.k)
      && OutcomeOf(end, s.k) == OutcomeOf(Straight(host, s, t), s.k)
         && RowOf(end, s.k) == RowOf(Straight(host, s, t), s.k)
  {
    hide Do, Ready, OutcomeOf, Bound, RecordedSite, Straight, DbAt, BundlesAt, LastTime, InOrder;
    var n, f, c, control := RunsAt(host, s, moves);
    var site := SiteAt(s, n, f, c, control);
    var lease := LeaseOn(control);
    StraightAt(host, s, t);
    StateAt(host, s, n, f, lease);
    OutcomeAt(host, s, n, f, c, control);
    var state := if n >= 2 then Succeeded else Running;
    DieAt(host, s, n, f, c, control);
    ClaimAt(host, s, n, f, c, lease, state, now, held);
    DecodeAt(host, s, n, f, c, held);
    SucceedRecovering(host, s, n, f, c, held, now);
    var n2, f2 := if n >= 2 then n else 2, if n >= 2 then f else now;
    PublishAt(host, s, n2, f2, c, Recovering(Publishing, held), now);
    var n3, c3 := if n2 >= 3 then n2 else 3, if n2 >= 3 then c else now;
    BindAt(host, s, n3, f2, c3, Recovering(Binding, held));
    GiveBackAt(host, s, f2, c3, held);
    SixMoves(host, Do(host, site, Die), ClaimRow(s.k, state, now, held), DecodeRow, SucceedJob(now),
             PublishBundle(now), BindPath(s.path), GiveBack);
    OutcomeAt(host, s, 4, f2, c3, Resting(None));
    OutcomeAt(host, s, 4, t, t, Resting(None));
  }

  lemma SixMoves(host: Host, site: Site, a: Move, b: Move, c: Move, d: Move, e: Move, f: Move)
    ensures DoAll(host, site, [a, b, c, d, e, f])
         == Do(host, Do(host, Do(host, Do(host, Do(host, Do(host, site, a), b), c), d), e), f)
  {
    hide Do;
    assert [a, b, c, d, e, f][..5] == [a, b, c, d, e] && [a, b, c, d, e][..4] == [a, b, c, d]
      && [a, b, c, d][..3] == [a, b, c];
    assert [a, b, c][..2] == [a, b] && [a, b][..1] == [a] && [a][..0] == [];
    assert DoAll(host, site, [a]) == Do(host, site, a);
    assert DoAll(host, site, [a, b]) == Do(host, Do(host, site, a), b);
    assert DoAll(host, site, [a, b, c]) == Do(host, Do(host, Do(host, site, a), b), c);
    assert DoAll(host, site, [a, b, c, d]) == Do(host, Do(host, Do(host, Do(host, site, a), b), c), d);
  }

  /** A recovery that crashes after binding the manifest leaves its lease on the row. The manifest is
      bound, so no recovery is due that would take it off again. */
  lemma LeaseLeftBehind(host: Host, s: Start, moves: seq<Move>)
    requires Ready(host, s) && InOrder(s, moves)
    requires var site := DoAll(host, RecordedSite(host, s), moves); site.task.Working? && site.task.phase.Releasing?
    ensures var site := DoAll(host, RecordedSite(host, s), moves);
      var dead := Do(host, site, Die);
      && Bound(dead, s.k) && dead.task == NoTask && LocalOf(site.w, 0).Finalizing?
      && RowOf(dead, s.k).Some? && Holds(RowOf(dead, s.k).value, LocalOf(site.w, 0).token)
  {
    hide Do, Ready, RecordedSite, DbAt, BundlesAt, Bound, OutcomeOf, LastTime, InOrder;
    var n, f, c, control := RunsAt(host, s, moves);
    DieAt(host, s, n, f, c, control);
    OutcomeAt(host, s, n, f, c, Resting(LeaseOn(control)));
  }
}
