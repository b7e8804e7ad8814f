/**
 Concurrent callers of the export service, crashes, and the backend, step by step. Whatever the
 interleaving, each job has one claim, one receipt, one backend row, and every write for it carries
 the same approved request.
 */
module ExportProtocol {
  import opened Texts
  import opened ExportModel

  /** What one `execute_export` call holds between its transactions and backend calls. */
  datatype Local =
    | Idle
    | Holding(approval: string, request: Request, attempt: string, allowed: bool)
    | Failed(approval: string, request: Request, attempt: string)        // the write raised
    | Found(approval: string, request: Request, attempt: string, wrote: WriteReceipt)
    | Releasing(approval: string, request: Request, attempt: string)

  /** `writes` and `returned` are histories: every request passed to the backend's `write`, and every
      receipt an `execute_export` call returned. */
  datatype World = World(t: Tables, ready: Ready, rows: Rows, callers: map<nat, Local>, writes: seq<Request>,
                         returned: seq<Receipt>)

  const START := World(Tables(map[], [], map[], map[], []), map[], map[], map[], [], [])

  function LocalOf(w: World, r: nat): Local {
    if r in w.callers then w.callers[r] else Idle
  }

  /** How a write can end for its caller. */
  datatype Ending = Returned | RaisedBefore | RaisedAfter

  datatype Step =
    | SetReady(ready: Ready)          // jobs succeed, and the artifact files may change under them
    | PrepareExport(job: string, target: Target)
    | ApproveExport(job: string, fingerprint: string, id: string)
    | StartExecute(r: nat, approval: string, attempt: string)
    | BackendWrite(r: nat, at: Time, ending: Ending)
    | BackendLookup(r: nat)
    | ReleaseAttempt(r: nat)
    | PersistReceipt(r: nat)
    | Crash(r: nat)

  function Becomes(w: World, r: nat, l: Local): World {
    w.(callers := w.callers[r := l])
  }

  function StartStep(env: Env, w: World, r: nat, approval: string, attempt: string): World {
    var out := ClaimExport(env, w.t, w.ready, approval, attempt);
    match out.1
    case Refused => w
    case Done(Persisted(stored, request)) =>
      if Lookup(w.rows, request) == Done(Some(WriteReceipt(request.key, request.target.spreadsheet,
                                                           request.target.sheet,
                                                           request.target.row, request.destination, stored.at)))
         && stored.destination == request.destination
      then w.(returned := w.returned + [stored]) else w
    case Done(Allowed(request, id)) => Becomes(w.(t := out.0), r, Holding(approval, request, id, true))
    case Done(Waiting(request, id)) => Becomes(w.(t := out.0), r, Holding(approval, request, id, false))
  }

  function WriteStep(w: World, r: nat, l: Local, at: Time, ending: Ending): World
    requires l.Holding?
  {
    var v := w.(writes := w.writes + [l.request]);
    var out := Write(w.rows, l.request, at);
    match ending
    case RaisedBefore => Becomes(v, r, Failed(l.approval, l.request, l.attempt))
    case RaisedAfter => Becomes(v.(rows := out.0), r, Failed(l.approval, l.request, l.attempt))
    case Returned =>
      if out.1.Refused? then Becomes(v, r, Failed(l.approval, l.request, l.attempt))
      else Received(v.(rows := out.0), r, l.approval, l.request, l.attempt, out.1.value)
  }

  /** The receipt is validated before it is persisted. */
  function Received(w: World, r: nat, approval: string, request: Request, attempt: string, wrote: WriteReceipt): World {
    Becomes(w, r, if ReceiptMatches(request, wrote) then Found(approval, request, attempt, wrote) else Idle)
  }

  function LookupStep(w: World, r: nat, l: Local): World
    requires l.Holding? || l.Failed?
  {
    match Lookup(w.rows, l.request)
    case Refused => Becomes(w, r, Idle)
    case Done(None) => Becomes(w, r, if l.Failed? then Releasing(l.approval, l.request, l.attempt) else Idle)
    case Done(Some(wrote)) => Received(w, r, l.approval, l.request, l.attempt, wrote)
  }

  function Next(env: Env, w: World, s: Step): World {
    match s
    case SetReady(ready) => w.(ready := ready)
    case PrepareExport(job, target) => w.(t := Prepare(env, w.t, w.ready, job, target).0)
    case ApproveExport(job, fingerprint, id) => w.(t := Approve(env, w.t, w.ready, job, fingerprint, id).0)
    case StartExecute(r, approval, attempt) => if LocalOf(w, r).Idle? then StartStep(env, w, r, approval, attempt)
      else w
    case BackendWrite(r, at, ending) =>
      var l := LocalOf(w, r);
      if l.Holding? && l.allowed then WriteStep(w, r, l, at, ending) else w
    case BackendLookup(r) =>
      var l := LocalOf(w, r);
      if (l.Holding? && !l.allowed) || l.Failed? then LookupStep(w, r, l) else w
    case ReleaseAttempt(r) =>
      var l := LocalOf(w, r);
      if l.Releasing? then Becomes(w.(t := Release(w.t, l.request.job, l.attempt).0), r, Idle) else w
    case PersistReceipt(r) =>
      var l := LocalOf(w, r);
      if l.Found? then
        var out := Persist(w.t, l.approval, l.request, l.attempt, l.wrote);
        Becomes(w.(t := out.0, returned := if out.1.Done? then w.returned + [out.1.value] else w.returned), r, Idle)
      else w
    case Crash(r) => Becomes(w, r, Idle)
  }

  ghost function RunAll(env: Env, steps: seq<Step>): World
    decreases |steps|
  {
    if steps == [] then START else Next(env, RunAll(env, steps[..|steps| - 1]), steps[|steps| - 1])
  }

  // ---- The invariant ------------------------------------------------------------------------------------------------

  function Latest(t: Tables, job: string): Option<Plan> {
    var rows := PlansOf(t, job);
    if rows == [] then None else Some(rows[|rows| - 1])
  }

  /** The request a claimed job is pinned to. */
  ghost predicate Pinned(env: Env, t: Tables, request: Request, approval: string) {
    && request.job in t.claims && t.claims[request.job].approval == approval
    && Latest(t, request.job).Some? && request == RequestFor(env, request.job, Latest(t, request.job).value)
  }

  ghost predicate PlansOk(t: Tables) {
    forall job, i, j :: job in t.plans && 0 <= i < j < |t.plans[job]| ==>
      t.plans[job][i].fingerprint != t.plans[job][j].fingerprint
  }

  ghost predicate ClaimOk(t: Tables, job: string)
    requires job in t.claims
  {
    && Latest(t, job).Some? && Latest(t, job).value.fingerprint == t.claims[job].fingerprint
    && Approval(t.claims[job].approval, job, t.claims[job].fingerprint) in t.approvals
  }

  ghost predicate HasReceipt(t: Tables, job: string) {
    exists i :: 0 <= i < |t.receipts| && t.receipts[i].job == job
  }

  ghost predicate TablesOk(t: Tables) {
    && PlansOk(t)
    && (forall a, b :: a in t.approvals && b in t.approvals && a.id == b.id ==> a == b)
    && (forall job :: job in t.claims ==> ClaimOk(t, job))
    && (forall job :: job in t.attempts ==>
          job in t.claims && t.claims[job].approval == t.attempts[job].approval && !HasReceipt(t, job))
    && (forall i, j :: 0 <= i < j < |t.receipts| ==> t.receipts[i].job != t.receipts[j].job)
    && (forall receipt :: receipt in t.receipts ==>
          receipt.job in t.claims && t.claims[receipt.job].approval == receipt.approval)
  }

  /** A stored receipt belongs to the claim, to the pinned request, and to the backend's row. */
  ghost predicate ReceiptOk(env: Env, w: World, receipt: Receipt) {
    && receipt.job in w.t.claims && w.t.claims[receipt.job].approval == receipt.approval
    && Latest(w.t, receipt.job).Some?
    && var request := RequestFor(env, receipt.job, Latest(w.t, receipt.job).value);
       && receipt.key == request.key && receipt.destination == request.destination
       && request.key in w.rows && w.rows[request.key] == (request, ReceiptFor(request, receipt.at))
  }

  ghost predicate LocalOk(env: Env, w: World, l: Local) {
    l.Idle? ||
    (&& Pinned(env, w.t, l.request, l.approval)
     && (l.Found? ==>
           && l.request.key in w.rows && w.rows[l.request.key] == (l.request, l.wrote)
           && l.wrote == ReceiptFor(l.request, l.wrote.at)))
  }

  ghost predicate PinnedSomehow(env: Env, t: Tables, request: Request) {
    request.job in t.claims && Pinned(env, t, request, t.claims[request.job].approval)
  }

  ghost predicate Inv(env: Env, w: World) {
    && TablesOk(w.t)
    && (forall receipt :: receipt in w.t.receipts ==> ReceiptOk(env, w, receipt))
    && (forall receipt :: receipt in w.returned ==> receipt in w.t.receipts)
    && (forall key :: key in w.rows ==>
          w.rows[key].0.key == key && PinnedSomehow(env, w.t, w.rows[key].0)
            && ReceiptMatches(w.rows[key].0, w.rows[key].1))
    && (forall request :: request in w.writes ==> PinnedSomehow(env, w.t, request))
    && (forall r :: r in w.callers ==> LocalOk(env, w, w.callers[r]))
  }

  // ---- Tables only grow around a claim ------------------------------------------------------------------------------

  /** Claims stay, and a claimed job's latest plan stays. */
  ghost predicate Grows(t: Tables, u: Tables) {
    && (forall job :: job in t.claims ==>
          job in u.claims && u.claims[job] == t.claims[job] && Latest(u, job) == Latest(t, job))
    && (forall receipt :: receipt in t.receipts ==> receipt in u.receipts)
  }

  lemma PinnedKept(env: Env, t: Tables, u: Tables, request: Request, approval: string)
    requires Grows(t, u) && Pinned(env, t, request, approval)
    ensures Pinned(env, u, request, approval)
  {
    hide RequestFor, PlansOf;
  }

  lemma ReceiptKept(env: Env, w: World, v: World, receipt: Receipt)
    requires ReceiptOk(env, w, receipt) && Grows(w.t, v.t)
    requires forall key :: key in w.rows ==> key in v.rows && v.rows[key] == w.rows[key]
    ensures ReceiptOk(env, v, receipt)
  {
    hide Latest;
  }

  /** The pinned facts of every caller, row and write survive growth of the tables and the rows. */
  lemma GrowthKeeps(env: Env, w: World, v: World)
    requires Inv(env, w) && TablesOk(v.t) && Grows(w.t, v.t) && v.t.receipts == w.t.receipts
    requires v == w.(t := v.t)
    ensures Inv(env, v)
  {
    hide TablesOk, RequestFor, Latest, Pinned, ReceiptMatches, ReceiptOk;
    forall receipt | receipt in v.t.receipts ensures ReceiptOk(env, v, receipt) {
      ReceiptKept(env, w, v, receipt);
    }
    forall request | PinnedSomehow(env, w.t, request) ensures PinnedSomehow(env, v.t, request) {
      PinnedKept(env, w.t, v.t, request, w.t.claims[request.job].approval);
    }
    forall r | r in v.callers ensures LocalOk(env, v, v.callers[r]) {
      var l := w.callers[r];
      assert LocalOk(env, w, l);
      if !l.Idle? {
        PinnedKept(env, w.t, v.t, l.request, l.approval);
      }
    }
  }

  lemma CallerMoves(env: Env, w: World, r: nat, l: Local)
    requires Inv(env, w) && LocalOk(env, w, l)
    ensures Inv(env, Becomes(w, r, l))
  {
    hide TablesOk, RequestFor, Latest, Pinned, ReceiptMatches;
    var v := Becomes(w, r, l);
    forall q | q in v.callers ensures LocalOk(env, v, v.callers[q]) {
      if q != r {
        assert LocalOk(env, w, w.callers[q]);
      }
      assert LocalOk(env, w, v.callers[q]);
    }
    forall receipt | receipt in v.t.receipts ensures ReceiptOk(env, v, receipt) {
      assert ReceiptOk(env, w, receipt);
    }
  }

  // ---- Plans, approvals and claims ----------------------------------------------------------------------------------

  lemma PlansAppend(t: Tables, job: string, row: Plan)
    requires PlansOk(t) && forall i :: 0 <= i < |PlansOf(t, job)| ==> PlansOf(t, job)[i].fingerprint != row.fingerprint
    ensures PlansOk(t.(plans := t.plans[job := PlansOf(t, job) + [row]]))
  {
  }

  /** Claims are read through the latest plan of their own job. */
  lemma ClaimFrame(t: Tables, u: Tables, job: string)
    requires job in t.claims && ClaimOk(t, job) && Latest(u, job) == Latest(t, job)
    requires job in u.claims && u.claims[job] == t.claims[job] && forall a :: a in t.approvals ==> a in u.approvals
    ensures ClaimOk(u, job)
  {
    hide Latest;
  }

  /** A new plan row, with a fingerprint of its own, for a job that is not claimed. */
  lemma NewPlanOk(t: Tables, job: string, row: Plan)
    requires TablesOk(t) && job !in t.claims
    requires forall i :: 0 <= i < |PlansOf(t, job)| ==> PlansOf(t, job)[i].fingerprint != row.fingerprint
    ensures var u := t.(plans := t.plans[job := PlansOf(t, job) + [row]]); TablesOk(u) && Grows(t, u)
  {
    hide PlansOk, ClaimOk, Latest;
    var u := t.(plans := t.plans[job := PlansOf(t, job) + [row]]);
    PlansAppend(t, job, row);
    forall other | other in t.claims ensures ClaimOk(u, other) && Latest(u, other) == Latest(t, other) {
      OtherLatest(t, u, job, other);
      ClaimFrame(t, u, other);
    }
  }

  lemma OtherLatest(t: Tables, u: Tables, job: string, other: string)
    requires
      && u.plans.Keys == t.plans.Keys + {job} && (forall k :: k in t.plans && k != job ==> u.plans[k] == t.plans[k])
      && other != job
    ensures Latest(u, other) == Latest(t, other)
  {
  }

  lemma PrepareGrows(env: Env, t: Tables, ready: Ready, job: string, target: Target)
    requires TablesOk(t)
    ensures var u := Prepare(env, t, ready, job, target).0;
            TablesOk(u) && Grows(t, u) && u.receipts == t.receipts
  {
    hide CurrentPlan, CellsFor, SafeCells, TablesOk, Grows, Latest;
    GrowsRefl(t);
    if job in ready && CellsFor(target, ready[job]).Some? {
      var fp := env.fingerprint(job, ready[job].hash, target);
      var row, rows := Plan(ready[job].hash, target, CellsFor(target, ready[job]).value, fp), PlansOf(t, job);
      if !(exists i :: 0 <= i < |rows| && rows[i].fingerprint == fp)
        && (job in t.claims ==> t.claims[job].fingerprint == fp) {
        ClaimedPlanStored(t, job);
        NewPlanOk(t, job, row);
      }
    }
  }

  /** The fingerprint of a claim is that of a stored plan row. */
  lemma ClaimedPlanStored(t: Tables, job: string)
    requires TablesOk(t)
    ensures job in t.claims ==>
      exists i :: 0 <= i < |PlansOf(t, job)| && PlansOf(t, job)[i].fingerprint == t.claims[job].fingerprint
  {
    if job in t.claims {
      assert ClaimOk(t, job);
      var rows := PlansOf(t, job);
      assert rows[|rows| - 1].fingerprint == t.claims[job].fingerprint;
    }
  }

  lemma GrowsRefl(t: Tables)
    ensures Grows(t, t)
  {
  }

  lemma ApproveGrows(env: Env, t: Tables, ready: Ready, job: string, fp: string, id: string)
    requires TablesOk(t)
    ensures var u := Approve(env, t, ready, job, fp, id).0;
            TablesOk(u) && Grows(t, u) && u.receipts == t.receipts
  {
    hide CurrentPlan, PlansOk, Latest, FirstApproval, ApprovalById;
    var u := Approve(env, t, ready, job, fp, id).0;
    if u != t {
      NoSuchApproval(t.approvals, id);
      forall other | other in u.claims ensures ClaimOk(u, other) {
        assert ClaimOk(t, other);
        assert Latest(u, other) == Latest(t, other) by { hide *; LatestFrame(t, u, other); }
      }
      forall other | other in t.claims ensures Latest(u, other) == Latest(t, other) {
        LatestFrame(t, u, other);
      }
      PlansFrame(t, u);
    }
  }

  lemma LatestFrame(t: Tables, u: Tables, job: string)
    requires u.plans == t.plans
    ensures Latest(u, job) == Latest(t, job)
  {
  }

  lemma PlansFrame(t: Tables, u: Tables)
    requires PlansOk(t) && u.plans == t.plans
    ensures PlansOk(u)
  {
  }

  lemma {:induction false} NoSuchApproval(rows: seq<Approval>, id: string)
    ensures ApprovalById(rows, id).None? ==> forall a :: a in rows ==> a.id != id
    decreases |rows|
  {
    if rows != [] && rows[0].id != id {
      NoSuchApproval(rows[1..], id);
    }
  }

  /** Pinning the latest plan of an unclaimed job. */
  lemma NewClaimOk(t: Tables, a: Approval)
    requires TablesOk(t) && a in t.approvals && a.job !in t.claims
    requires Latest(t, a.job).Some? && Latest(t, a.job).value.fingerprint == a.fingerprint
    ensures var u := t.(claims := t.claims[a.job := Claim(a.id, a.fingerprint)]); TablesOk(u) && Grows(t, u)
  {
    hide PlansOk, ClaimOk, Latest, HasReceipt;
    var u := t.(claims := t.claims[a.job := Claim(a.id, a.fingerprint)]);
    PlansFrame(t, u);
    forall other | other in u.claims ensures ClaimOk(u, other) && Latest(u, other) == Latest(t, other) {
      LatestFrame(t, u, other);
      if other != a.job {
        ClaimFrame(t, u, other);
      } else {
        FreshClaim(u, a);
      }
    }
    forall job | job in u.attempts ensures !HasReceipt(u, job) {
      ReceiptFrame(t, u, job);
    }
  }

  lemma FreshClaim(u: Tables, a: Approval)
    requires a.job in u.claims && u.claims[a.job] == Claim(a.id, a.fingerprint) && a in u.approvals
    requires Latest(u, a.job).Some? && Latest(u, a.job).value.fingerprint == a.fingerprint
    ensures ClaimOk(u, a.job)
  {
    hide Latest;
    assert a == Approval(a.id, a.job, a.fingerprint);
  }

  lemma ReceiptFrame(t: Tables, u: Tables, job: string)
    requires u.receipts == t.receipts
    ensures HasReceipt(u, job) == HasReceipt(t, job)
  {
  }

  /** Opening an attempt under a claim that has no receipt. */
  lemma NewAttemptOk(t: Tables, job: string, approval: string, id: string)
    requires TablesOk(t) && job in t.claims && t.claims[job].approval == approval && ReceiptOf(t, approval).None?
    ensures var u := t.(attempts := t.attempts[job := Attempt(approval, id)]); TablesOk(u) && Grows(t, u)
  {
    hide PlansOk, ClaimOk, Latest;
    var u := t.(attempts := t.attempts[job := Attempt(approval, id)]);
    PlansFrame(t, u);
    forall other | other in u.claims ensures ClaimOk(u, other) && Latest(u, other) == Latest(t, other) {
      LatestFrame(t, u, other);
      ClaimFrame(t, u, other);
    }
    forall i | 0 <= i < |t.receipts| ensures t.receipts[i].job != job {
      assert t.receipts[i] in t.receipts;
    }
  }

  /** A claim call pins the job at most once, to the plan that is current, and opens an attempt only
      when no receipt exists. */
  lemma ClaimGrows(env: Env, t: Tables, ready: Ready, approval: string, attempt: string)
    requires TablesOk(t)
    ensures var u := ClaimExport(env, t, ready, approval, attempt).0;
            TablesOk(u) && Grows(t, u) && u.receipts == t.receipts
  {
    hide CurrentPlan, TablesOk, ApprovalById, ReceiptOf, RequestFor, Grows, Latest;
    GrowsRefl(t);
    var found := ApprovalById(t.approvals, approval);
    if ClaimExport(env, t, ready, approval, attempt).0 != t {
      var a := found.value;
      CurrentIsLatest(env, t, ready, a.job);
      var t1 := t;
      if a.job !in t.claims {
        t1 := t.(claims := t.claims[a.job := Claim(approval, a.fingerprint)]);
        if !(exists j :: j in t.claims && t.claims[j].approval == approval) {
          NewClaimOk(t, a);
        }
      }
      SameReceipts(t, t1, approval);
      if TablesOk(t1) && a.job !in t1.attempts {
        NewAttemptOk(t1, a.job, approval, attempt);
        GrowsTwice(t, t1, t1.(attempts := t1.attempts[a.job := Attempt(approval, attempt)]));
      }
    }
  }

  lemma GrowsTwice(t: Tables, u: Tables, v: Tables)
    requires Grows(t, u) && Grows(u, v)
    ensures Grows(t, v)
  {
    hide Latest;
  }

  lemma SameReceipts(t: Tables, u: Tables, approval: string)
    requires u.receipts == t.receipts
    ensures ReceiptOf(u, approval) == ReceiptOf(t, approval)
  {
  }

  lemma CurrentIsLatest(env: Env, t: Tables, ready: Ready, job: string)
    requires job in ready
    ensures CurrentPlan(env, t, ready, job).Some? ==> Latest(t, job) == CurrentPlan(env, t, ready, job)
  {
    hide CellsFor, SafeCells;
  }

  // ---- Receipts and releases ----------------------------------------------------------------------------------------

  /** Giving up an attempt. */
  lemma DropAttemptOk(t: Tables, job: string)
    requires TablesOk(t)
    ensures var u := t.(attempts := t.attempts - {job}); TablesOk(u) && Grows(t, u)
  {
    hide PlansOk, ClaimOk, Latest, HasReceipt;
    var u := t.(attempts := t.attempts - {job});
    PlansFrame(t, u);
    forall other | other in u.claims ensures ClaimOk(u, other) && Latest(u, other) == Latest(t, other) {
      LatestFrame(t, u, other);
      ClaimFrame(t, u, other);
    }
    forall other | other in u.attempts ensures !HasReceipt(u, other) {
      ReceiptFrame(t, u, other);
    }
  }

  /** The receipt that consumes the open attempt. */
  lemma NewReceiptOk(t: Tables, row: Receipt)
    requires TablesOk(t) && row.job in t.attempts && row.job in t.claims && t.claims[row.job].approval == row.approval
    ensures var u := t.(receipts := t.receipts + [row], attempts := t.attempts - {row.job}); TablesOk(u) && Grows(t, u)
  {
    hide PlansOk, ClaimOk, Latest;
    var u := t.(receipts := t.receipts + [row], attempts := t.attempts - {row.job});
    PlansFrame(t, u);
    forall other | other in u.claims ensures ClaimOk(u, other) && Latest(u, other) == Latest(t, other) {
      LatestFrame(t, u, other);
      ClaimFrame(t, u, other);
    }
    forall other | other in u.attempts ensures !HasReceipt(u, other) {
      assert !HasReceipt(t, other);
      forall i | 0 <= i < |u.receipts| ensures u.receipts[i].job != other {
        if i < |t.receipts| {
          assert t.receipts[i].job != other;
        }
      }
    }
    forall i, j | 0 <= i < j < |u.receipts| ensures u.receipts[i].job != u.receipts[j].job {
      assert !HasReceipt(t, row.job);
      assert t.receipts[i].job != row.job;
    }
  }

  lemma ReleaseKeeps(env: Env, w: World, r: nat)
    requires Inv(env, w) && LocalOf(w, r).Releasing?
    ensures var l := LocalOf(w, r); Inv(env, Becomes(w.(t := Release(w.t, l.request.job, l.attempt).0), r, Idle))
  {
    hide Inv, TablesOk, Grows;
    var l := LocalOf(w, r);
    var t := Release(w.t, l.request.job, l.attempt).0;
    TablesOf(env, w);
    GrowsRefl(w.t);
    DropAttemptOk(w.t, l.request.job);
    GrowthKeeps(env, w, w.(t := t));
    IdleMoves(env, w.(t := t), r);
  }

  lemma TablesOf(env: Env, w: World)
    requires Inv(env, w)
    ensures TablesOk(w.t)
  {
  }

  lemma IdleMoves(env: Env, w: World, r: nat)
    requires Inv(env, w)
    ensures Inv(env, Becomes(w, r, Idle))
  {
    hide Inv;
    CallerMoves(env, w, r, Idle);
  }

  /** A new receipt for a caller that found its row at the backend. */
  lemma ReceiptAdded(env: Env, w: World, r: nat, row: Receipt)
    requires Inv(env, w) && LocalOf(w, r).Found?
    requires var l := LocalOf(w, r);
      row == Receipt(l.request.job, l.approval, l.request.key, l.wrote.destination, l.wrote.at)
    requires row.job in w.t.attempts
    ensures Inv(env, w.(t := w.t.(receipts := w.t.receipts + [row], attempts := w.t.attempts - {row.job}),
                        returned := w.returned + [row]))
  {
    hide TablesOk, RequestFor, Latest, PlansOf;
    var l := LocalOf(w, r);
    assert LocalOk(env, w, l);
    NewReceiptOk(w.t, row);
    var t := w.t.(receipts := w.t.receipts + [row], attempts := w.t.attempts - {row.job});
    var v := w.(t := t, returned := w.returned + [row]);
    forall receipt | receipt in t.receipts ensures ReceiptOk(env, v, receipt) {
      if receipt in w.t.receipts {
        ReceiptKept(env, w, v, receipt);
      } else {
        assert receipt == row;
        LatestFrame(w.t, t, row.job);
      }
    }
    forall request | PinnedSomehow(env, w.t, request) ensures PinnedSomehow(env, t, request) {
      PinnedKept(env, w.t, t, request, w.t.claims[request.job].approval);
    }
    forall q | q in v.callers ensures LocalOk(env, v, v.callers[q]) {
      var m := w.callers[q];
      assert LocalOk(env, w, m);
      if !m.Idle? {
        PinnedKept(env, w.t, t, m.request, m.approval);
      }
    }
  }

  lemma ReceiptIn(t: Tables, approval: string)
    ensures ReceiptOf(t, approval).Some? ==>
      ReceiptOf(t, approval).value in t.receipts && ReceiptOf(t, approval).value.approval == approval
  {
  }

  lemma PersistKeeps(env: Env, w: World, r: nat)
    requires Inv(env, w) && LocalOf(w, r).Found?
    ensures Inv(env, Next(env, w, PersistReceipt(r)))
  {
    hide TablesOk, RequestFor, Latest, ReceiptOf, Pinned, PinnedSomehow, ReceiptOk, LocalOk;
    var l := LocalOf(w, r);
    var row := Receipt(l.request.job, l.approval, l.request.key, l.wrote.destination, l.wrote.at);
    var out := Persist(w.t, l.approval, l.request, l.attempt, l.wrote);
    var v := w.(t := out.0, returned := if out.1.Done? then w.returned + [out.1.value] else w.returned);
    ReceiptIn(w.t, l.approval);
    if out.0 != w.t {
      ReceiptAdded(env, w, r, row);
    } else {
      SameWorld(env, w, v);
    }
    IdleMoves(env, v, r);
  }

  /** Returning a stored receipt changes nothing else. */
  lemma SameWorld(env: Env, w: World, v: World)
    requires Inv(env, w) && v == w.(returned := v.returned) && forall receipt :: receipt in v.returned ==>
      receipt in w.t.receipts
    ensures Inv(env, v)
  {
    hide TablesOk, RequestFor, Latest, Pinned;
    forall receipt | receipt in v.t.receipts ensures ReceiptOk(env, v, receipt) {
      assert ReceiptOk(env, w, receipt);
    }
    forall q | q in v.callers ensures LocalOk(env, v, v.callers[q]) {
      assert LocalOk(env, w, w.callers[q]);
    }
  }

  /** A claim call returns the request that the job is pinned to. */
  lemma ClaimPins(env: Env, t: Tables, ready: Ready, approval: string, attempt: string)
    requires TablesOk(t)
    ensures var out := ClaimExport(env, t, ready, approval, attempt);
      && (out.1.Done? && !out.1.value.Persisted? ==> Pinned(env, out.0, out.1.value.request, approval))
      && (out.1.Done? && out.1.value.Persisted? ==> out.0 == t && out.1.value.receipt in t.receipts)
  {
    hide CurrentPlan, TablesOk, ApprovalById, ReceiptOf, Latest;
    ReceiptIn(t, approval);
    var found := ApprovalById(t.approvals, approval);
    if found.Some? && found.value.job in ready {
      CurrentIsLatest(env, t, ready, found.value.job);
      LatestFrame(t, ClaimExport(env, t, ready, approval, attempt).0, found.value.job);
    }
  }

  lemma StartKeeps(env: Env, w: World, r: nat, approval: string, attempt: string)
    requires Inv(env, w)
    ensures Inv(env, StartStep(env, w, r, approval, attempt))
  {
    hide ClaimExport, Inv, TablesOk, Pinned, Grows, Lookup;
    var out := ClaimExport(env, w.t, w.ready, approval, attempt);
    TablesOf(env, w);
    ClaimGrows(env, w.t, w.ready, approval, attempt);
    ClaimPins(env, w.t, w.ready, approval, attempt);
    if out.1.Done? && out.1.value.Persisted? {
      ReturnedStored(env, w, out.1.value.receipt);
    } else if out.1.Done? {
      GrowthKeeps(env, w, w.(t := out.0));
      CallerMoves(env, w.(t := out.0), r,
                  Holding(approval, out.1.value.request, out.1.value.attempt, out.1.value.Allowed?));
    }
  }

  lemma ReturnedStored(env: Env, w: World, receipt: Receipt)
    requires Inv(env, w) && receipt in w.t.receipts
    ensures Inv(env, w.(returned := w.returned + [receipt]))
  {
    hide TablesOk, PinnedSomehow, ReceiptOk, LocalOk, ReceiptMatches;
    SameWorld(env, w, w.(returned := w.returned + [receipt]));
  }

  /** The backend stores a pinned request, or the row that is there already stays. */
  lemma RowsKeep(env: Env, w: World, request: Request, at: Time)
    requires Inv(env, w) && PinnedSomehow(env, w.t, request)
    ensures Inv(env, w.(rows := Write(w.rows, request, at).0))
  {
    hide TablesOk, RequestFor, Latest, Pinned, PinnedSomehow;
    var v := w.(rows := Write(w.rows, request, at).0);
    forall receipt | receipt in v.t.receipts ensures ReceiptOk(env, v, receipt) {
      assert ReceiptOk(env, w, receipt);
    }
    forall q | q in v.callers ensures LocalOk(env, v, v.callers[q]) {
      assert LocalOk(env, w, w.callers[q]);
    }
  }

  lemma WritesKeep(env: Env, w: World, request: Request)
    requires Inv(env, w) && PinnedSomehow(env, w.t, request)
    ensures Inv(env, w.(writes := w.writes + [request]))
  {
    hide TablesOk, RequestFor, Latest, Pinned, PinnedSomehow, ReceiptMatches;
    var v := w.(writes := w.writes + [request]);
    forall receipt | receipt in v.t.receipts ensures ReceiptOk(env, v, receipt) {
      assert ReceiptOk(env, w, receipt);
    }
    forall q | q in v.callers ensures LocalOk(env, v, v.callers[q]) {
      assert LocalOk(env, w, w.callers[q]);
    }
  }

  lemma HoldsPinned(env: Env, w: World, r: nat)
    requires Inv(env, w) && !LocalOf(w, r).Idle?
    ensures Pinned(env, w.t, LocalOf(w, r).request, LocalOf(w, r).approval)
    ensures PinnedSomehow(env, w.t, LocalOf(w, r).request)
  {
    hide TablesOk, RequestFor, Latest;
    assert LocalOk(env, w, w.callers[r]);
  }

  lemma WriteKeeps(env: Env, w: World, r: nat, at: Time, ending: Ending)
    requires Inv(env, w) && LocalOf(w, r).Holding?
    ensures Inv(env, WriteStep(w, r, LocalOf(w, r), at, ending))
  {
    hide Inv, Pinned, PinnedSomehow, TablesOk;
    var l := LocalOf(w, r);
    HoldsPinned(env, w, r);
    var v := w.(writes := w.writes + [l.request]);
    var out := Write(w.rows, l.request, at);
    WritesKeep(env, w, l.request);
    RowsKeep(env, v, l.request, at);
    CallerMoves(env, v, r, Failed(l.approval, l.request, l.attempt));
    CallerMoves(env, v.(rows := out.0), r, Failed(l.approval, l.request, l.attempt));
    if out.1.Done? {
      ReceivedKeeps(env, v.(rows := out.0), r, l.approval, l.request, l.attempt, out.1.value);
    }
  }

  lemma ReceivedKeeps(env: Env, w: World, r: nat, approval: string, request: Request, attempt: string,
                      wrote: WriteReceipt)
    requires Inv(env, w) && Pinned(env, w.t, request, approval)
    requires request.key in w.rows && w.rows[request.key] == (request, wrote)
    ensures Inv(env, Received(w, r, approval, request, attempt, wrote))
  {
    hide Inv, Pinned;
    IdleMoves(env, w, r);
    if ReceiptMatches(request, wrote) {
      CallerMoves(env, w, r, Found(approval, request, attempt, wrote));
    }
  }

  lemma LookupKeeps(env: Env, w: World, r: nat)
    requires Inv(env, w) && (LocalOf(w, r).Holding? || LocalOf(w, r).Failed?)
    ensures Inv(env, LookupStep(w, r, LocalOf(w, r)))
  {
    hide Inv, Pinned, PinnedSomehow, TablesOk;
    var l := LocalOf(w, r);
    HoldsPinned(env, w, r);
    IdleMoves(env, w, r);
    CallerMoves(env, w, r, Releasing(l.approval, l.request, l.attempt));
    if Lookup(w.rows, l.request).Done? && Lookup(w.rows, l.request).value.Some? {
      ReceivedKeeps(env, w, r, l.approval, l.request, l.attempt, Lookup(w.rows, l.request).value.value);
    }
  }

  lemma ReadyKeeps(env: Env, w: World, ready: Ready)
    requires Inv(env, w)
    ensures Inv(env, w.(ready := ready))
  {
    hide TablesOk, RequestFor, Latest, Pinned, PinnedSomehow, ReceiptMatches;
    var v := w.(ready := ready);
    forall receipt | receipt in v.t.receipts ensures ReceiptOk(env, v, receipt) {
      assert ReceiptOk(env, w, receipt);
    }
    forall q | q in v.callers ensures LocalOk(env, v, v.callers[q]) {
      assert LocalOk(env, w, w.callers[q]);
    }
  }

  /** Every step of every caller keeps the invariant. */
  lemma StepKeeps(env: Env, w: World, s: Step)
    requires Inv(env, w)
    ensures Inv(env, Next(env, w, s))
  {
    hide Inv, TablesOk, Grows, Prepare, Approve, StartStep, WriteStep, LookupStep, Persist, Release;
    TablesOf(env, w);
    match s
    case SetReady(ready) => ReadyKeeps(env, w, ready);
    case PrepareExport(job, target) =>
      PrepareGrows(env, w.t, w.ready, job, target);
      GrowthKeeps(env, w, w.(t := Prepare(env, w.t, w.ready, job, target).0));
    case ApproveExport(job, fingerprint, id) =>
      ApproveGrows(env, w.t, w.ready, job, fingerprint, id);
      GrowthKeeps(env, w, w.(t := Approve(env, w.t, w.ready, job, fingerprint, id).0));
    case StartExecute(r, approval, attempt) => if LocalOf(w, r).Idle? { StartKeeps(env, w, r, approval, attempt); }
    case BackendWrite(r, at, ending) => if LocalOf(w, r).Holding? { WriteKeeps(env, w, r, at, ending); }
    case BackendLookup(r) => if LocalOf(w, r).Holding? || LocalOf(w, r).Failed? { LookupKeeps(env, w, r); }
    case ReleaseAttempt(r) => if LocalOf(w, r).Releasing? { ReleaseKeeps(env, w, r); }
    case PersistReceipt(r) => if LocalOf(w, r).Found? { PersistKeeps(env, w, r); }
    case Crash(r) => IdleMoves(env, w, r);
  }

  lemma {:induction false} RunsKeep(env: Env, steps: seq<Step>)
    ensures Inv(env, RunAll(env, steps))
    decreases |steps|
  {
    hide Next, Inv;
    if steps == [] {
      StartOk(env);
    } else {
      RunsKeep(env, steps[..|steps| - 1]);
      StepKeeps(env, RunAll(env, steps[..|steps| - 1]), steps[|steps| - 1]);
    }
  }

  lemma StartOk(env: Env)
    ensures Inv(env, START)
  {
  }

  // ---- Exactly once -------------------------------------------------------------------------------------------------

  /** In every reachable state: at most one receipt per job and never beside an open attempt; every
      write ever made for a job carried the same request, that of its claimed and approved plan; the
      backend holds at most one row for it; and every caller was handed the same receipt. */
  lemma ExactlyOnce(env: Env, steps: seq<Step>)
    ensures var w := RunAll(env, steps);
      && (forall i, j :: 0 <= i < j < |w.t.receipts| ==> w.t.receipts[i].job != w.t.receipts[j].job)
      && (forall job :: job in w.t.attempts ==> !HasReceipt(w.t, job))
      && (forall a, b :: a in w.writes && b in w.writes && a.job == b.job ==> a == b)
      && (forall a, b :: a in w.rows && b in w.rows && w.rows[a].0.job == w.rows[b].0.job ==> a == b)
      && (forall a, b :: a in w.returned && b in w.returned && a.job == b.job ==> a == b)
      && (forall a :: a in w.writes ==> WasApproved(env, w.t, a))
  {
    hide Next, Latest, ReceiptOk, LocalOk, HasReceipt, RequestFor;
    RunsKeep(env, steps);
    var w := RunAll(env, steps);
    forall a, b | a in w.returned && b in w.returned && a.job == b.job ensures a == b {
      var i :| 0 <= i < |w.t.receipts| && w.t.receipts[i] == a;
      var j :| 0 <= j < |w.t.receipts| && w.t.receipts[j] == b;
      assert i == j;
    }
    forall a | a in w.writes ensures WasApproved(env, w.t, a) {
      assert PinnedSomehow(env, w.t, a) && ClaimOk(w.t, a.job);
    }
  }

  /** The request is that of a stored plan whose fingerprint an export approval of the job names. */
  ghost predicate WasApproved(env: Env, t: Tables, request: Request) {
    && Latest(t, request.job).Some? && request == RequestFor(env, request.job, Latest(t, request.job).value)
    && request.job in t.claims
    && Approval(t.claims[request.job].approval, request.job, Latest(t, request.job).value.fingerprint) in t.approvals
  }

  lemma StepGrows(env: Env, w: World, s: Step)
    requires Inv(env, w)
    ensures Grows(w.t, Next(env, w, s).t)
  {
    hide Inv, TablesOk, Grows, Prepare, Approve, ClaimExport, WriteStep, LookupStep, Lookup;
    TablesOf(env, w);
    GrowsRefl(w.t);
    match s
    case PrepareExport(job, target) => PrepareGrows(env, w.t, w.ready, job, target);
    case ApproveExport(job, fingerprint, id) => ApproveGrows(env, w.t, w.ready, job, fingerprint, id);
    case StartExecute(r, approval, attempt) => ClaimGrows(env, w.t, w.ready, approval, attempt);
    case BackendWrite(r, at, ending) => BackendKeepsTables(w, s, env);
    case BackendLookup(r) => BackendKeepsTables(w, s, env);
    case ReleaseAttempt(r) => if LocalOf(w, r).Releasing? { DropAttemptOk(w.t, LocalOf(w, r).request.job); }
    case PersistReceipt(r) => if LocalOf(w, r).Found? { PersistGrows(w.t, LocalOf(w, r)); }
    case _ =>
  }

  lemma BackendKeepsTables(w: World, s: Step, env: Env)
    requires s.BackendWrite? || s.BackendLookup?
    ensures Next(env, w, s).t == w.t
  {
  }

  lemma PersistGrows(t: Tables, l: Local)
    requires l.Found?
    ensures Grows(t, Persist(t, l.approval, l.request, l.attempt, l.wrote).0)
  {
    hide ReceiptOf;
    var u := Persist(t, l.approval, l.request, l.attempt, l.wrote).0;
    forall job | job in t.claims ensures Latest(u, job) == Latest(t, job) {
      LatestFrame(t, u, job);
    }
  }

  /** A claim, and the plan it pins, outlive everything that follows. */
  lemma {:induction false} ClaimIsForever(env: Env, steps: seq<Step>, n: nat, job: string)
    requires n <= |steps| && job in RunAll(env, steps[..n]).t.claims
    ensures var t, u := RunAll(env, steps[..n]).t, RunAll(env, steps).t;
      && job in u.claims && u.claims[job] == t.claims[job] && Latest(u, job) == Latest(t, job)
    decreases |steps|
  {
    hide Next, Latest;
    if n == |steps| {
      assert steps[..n] == steps;
    } else {
      var m := |steps| - 1;
      assert steps[..m][..n] == steps[..n];
      ClaimIsForever(env, steps[..m], n, job);
      RunsKeep(env, steps[..m]);
      StepGrows(env, RunAll(env, steps[..m]), steps[m]);
    }
  }
}
