/**
 What the export service puts into plans, requests and receipts: the cells are the values that the
 artifact of the job holds under the sources of the target, in every plan prepared, every request
 handed out and every request written.
 */
module ExportCells {
  import opened Texts
  import opened ExportModel
  import opened ExportProtocol

  /** The cells hold, for exactly the columns of the target, the value under the source of the column. */
  ghost predicate Selects(target: Target, values: map<string, string>, cells: map<string, string>) {
    && cells.Keys == target.columns.Keys
    && forall c :: c in cells ==> target.columns[c] in values && cells[c] == values[target.columns[c]]
  }

  /** No cell starts like a formula. */
  ghost predicate Plain(cells: map<string, string>) {
    forall c :: c in cells && cells[c] != "" ==> cells[c][0] !in {'=', '+', '-', '@'}
  }

  /** A column of the target has no value in the artifact. */
  ghost predicate LacksSource(target: Target, values: map<string, string>) {
    exists c :: c in target.columns && target.columns[c] !in values
  }

  /** A value that the target would select starts like a formula. */
  ghost predicate SelectsFormula(target: Target, values: map<string, string>) {
    exists c :: c in target.columns && target.columns[c] in values && values[target.columns[c]] != ""
                && values[target.columns[c]][0] in {'=', '+', '-', '@'}
  }

  lemma CellsSelected(target: Target, artifact: Artifact)
    ensures var cells := CellsFor(target, artifact);
      && (cells.None? <==> LacksSource(target, artifact.values))
      && (cells.Some? ==>
            && Selects(target, artifact.values, cells.value)
            && (SafeCells(cells.value) <==> Plain(cells.value))
            && (Plain(cells.value) <==> !SelectsFormula(target, artifact.values)))
  {
    var cells := CellsFor(target, artifact);
    if cells.Some? && Plain(cells.value) {
      forall c | c in target.columns ensures !(&& target.columns[c] in artifact.values
                                               && artifact.values[target.columns[c]] != ""
                                               && artifact.values[target.columns[c]][0] in {'=', '+', '-', '@'})
      {
        assert c in cells.value;
      }
    }
  }

  /** One target selects one set of cells. */
  lemma SelectedOnce(target: Target, values: map<string, string>, a: map<string, string>, b: map<string, string>)
    requires Selects(target, values, a) && Selects(target, values, b)
    ensures a == b
  {
  }

  // ---- Plans --------------------------------------------------------------------------------------------------------

  /** A plan for this target over this artifact. */
  ghost predicate PlanFor(env: Env, job: string, target: Target, artifact: Artifact, p: Plan) {
    && p.target == target && p.artifactHash == artifact.hash
    && p.fingerprint == env.fingerprint(job, artifact.hash, target)
    && Selects(target, artifact.values, p.cells) && Plain(p.cells)
  }

  /** Why a plan is refused, in the order of the checks: the job is not exportable, a source is missing,
      the job is claimed under another fingerprint, a cell is formula-like, or the plan is stored
      already and is not the latest one, or not as it should be. */
  datatype Cause = NotReady | MissingSource | ClaimedOtherwise | FormulaCell | NotCurrent

  ghost function CauseOf(env: Env, t: Tables, ready: Ready, job: string, target: Target): Option<Cause> {
    if job !in ready then Some(NotReady)
    else
      var artifact, rows := ready[job], PlansOf(t, job);
      var fp := env.fingerprint(job, artifact.hash, target);
      if LacksSource(target, artifact.values) then Some(MissingSource)
      else if job in t.claims && t.claims[job].fingerprint != fp then Some(ClaimedOtherwise)
      else if SelectsFormula(target, artifact.values) then Some(FormulaCell)
      else if (exists i :: 0 <= i < |rows| && rows[i].fingerprint == fp)
              && !PlanFor(env, job, target, artifact, rows[|rows| - 1])
      then Some(NotCurrent)
      else None
  }

  /** The plan that is current: the latest one, still true of the artifact. */
  lemma CurrentDecided(env: Env, t: Tables, ready: Ready, job: string)
    requires job in ready
    ensures var p, rows := CurrentPlan(env, t, ready, job), PlansOf(t, job);
      && (p.Some? <==> rows != [] && PlanFor(env, job, rows[|rows| - 1].target, ready[job], rows[|rows| - 1]))
      && (p.Some? ==> p.value == rows[|rows| - 1])
  {
    hide CellsFor, SafeCells, Selects, Plain, SelectsFormula;
    var rows := PlansOf(t, job);
    if rows != [] {
      var last := rows[|rows| - 1];
      CellsSelected(last.target, ready[job]);
      var cells := CellsFor(last.target, ready[job]);
      if Selects(last.target, ready[job].values, last.cells) {
        HasSources(last.target, ready[job].values, last.cells);
        SelectedOnce(last.target, ready[job].values, last.cells, cells.value);
      }
    }
  }

  lemma HasSources(target: Target, values: map<string, string>, cells: map<string, string>)
    requires Selects(target, values, cells)
    ensures !LacksSource(target, values)
  {
  }

  /** Preparing a plan. It is refused exactly for its cause; otherwise the answer is a plan for the asked
      target over the artifact of the job, stored as the latest one, unless it was stored before. */
  lemma PrepareDecided(env: Env, t: Tables, ready: Ready, job: string, target: Target)
    ensures var (u, out) := Prepare(env, t, ready, job, target);
      if CauseOf(env, t, ready, job, target).Some? then u == t && out.Refused?
      else
        var rows := PlansOf(t, job);
        && out.Done? && PlanFor(env, job, target, ready[job], out.value)
        && (if exists i :: 0 <= i < |rows| && rows[i].fingerprint == out.value.fingerprint
            then u == t && rows[|rows| - 1] == out.value
            else u == t.(plans := t.plans[job := (if job in t.plans then t.plans[job] else []) + [out.value]]))
  {
    hide CellsFor, SafeCells, Selects, Plain, CurrentPlan, LacksSource, SelectsFormula;
    if job in ready {
      var artifact, rows := ready[job], PlansOf(t, job);
      CellsSelected(target, artifact);
      CurrentDecided(env, t, ready, job);
      var cells := CellsFor(target, artifact);
      if cells.Some? {
        var fp := env.fingerprint(job, artifact.hash, target);
        var row := Plan(artifact.hash, target, cells.value, fp);
        var known := exists i :: 0 <= i < |rows| && rows[i].fingerprint == fp;
        if known && PlanFor(env, job, target, artifact, rows[|rows| - 1]) {
          SelectedOnce(target, artifact.values, cells.value, rows[|rows| - 1].cells);
          assert rows[|rows| - 1] == row;
        } else if !known {
          var u := t.(plans := t.plans[job := rows + [row]]);
          assert PlansOf(u, job) == rows + [row] && PlansOf(u, job)[|rows|] == row;
          CurrentDecided(env, u, ready, job);
        }
      }
    }
  }

  // ---- Approvals ----------------------------------------------------------------------------------------------------

  /** The latest plan of the job is still true of its artifact and has this fingerprint. */
  ghost predicate CurrentIs(env: Env, t: Tables, ready: Ready, job: string, fp: string) {
    && job in ready && PlansOf(t, job) != []
    && var p := PlansOf(t, job)[|PlansOf(t, job)| - 1];
       p.fingerprint == fp && PlanFor(env, job, p.target, ready[job], p)
  }

  lemma {:induction false} FirstApprovalFound(rows: seq<Approval>, job: string, fp: string)
    ensures FirstApproval(rows, job, fp).None? ==> forall a :: a in rows ==> !(a.job == job && a.fingerprint == fp)
    decreases |rows|
  {
    if rows != [] {
      FirstApprovalFound(rows[1..], job, fp);
    }
  }

  /** Approving a plan. It is refused exactly if the plan is not the current one, or is not approved yet
      and the new identifier is taken; otherwise the answer names an approval of the plan, stored before
      or added. */
  lemma ApproveDecided(env: Env, t: Tables, ready: Ready, job: string, fp: string, id: string)
    ensures var (u, out) := Approve(env, t, ready, job, fp, id);
      if !CurrentIs(env, t, ready, job, fp) then u == t && out.Refused?
      else if exists a :: a in t.approvals && a.job == job && a.fingerprint == fp then
        u == t && out.Done? && Approval(out.value, job, fp) in t.approvals
      else if exists a :: a in t.approvals && a.id == id then u == t && out.Refused?
      else u == t.(approvals := t.approvals + [Approval(id, job, fp)]) && out == Done(id)
  {
    hide CurrentPlan, PlanFor, FirstApproval, ApprovalById;
    FirstApprovalFound(t.approvals, job, fp);
    NoSuchApproval(t.approvals, id);
    if job in ready {
      CurrentDecided(env, t, ready, job);
      var found := FirstApproval(t.approvals, job, fp);
      assert found.Some? ==> found.value == Approval(found.value.id, job, fp);
    }
  }

  // ---- Claims -------------------------------------------------------------------------------------------------------

  /** The request for this job, as its artifact is: the key and the destination are those of the artifact
      and the target, and the cells are what the target selects. */
  ghost predicate RequestedFrom(env: Env, ready: Ready, request: Request) {
    && request.job in ready
    && request.key == env.exportKey(request.job, ready[request.job].hash)
    && request.destination == env.destination(request.target)
    && Selects(request.target, ready[request.job].values, request.cells) && Plain(request.cells)
  }

  /** Nobody else claimed the job, or claimed under this approval, and no open attempt is in the way. */
  ghost predicate Unclaimed(t: Tables, a: Approval, attempt: string) {
    && (if a.job in t.claims then t.claims[a.job] == Claim(a.id, a.fingerprint)
        else forall job :: job in t.claims ==> t.claims[job].approval != a.id)
    && (if a.job in t.attempts then t.attempts[a.job].approval == a.id
        else forall job :: job in t.attempts ==>
          t.attempts[job].id != attempt && t.attempts[job].approval != a.id)
  }

  ghost predicate MayClaim(env: Env, t: Tables, ready: Ready, a: Approval, attempt: string) {
    && a in t.approvals && CurrentIs(env, t, ready, a.job, a.fingerprint)
    && if exists r :: r in t.receipts && r.approval == a.id
       then forall r :: r in t.receipts && r.approval == a.id ==>
         r.job == a.job && r.key == env.exportKey(a.job, ready[a.job].hash)
       else Unclaimed(t, a, attempt)
  }

  /** An approval has one receipt at most. */
  lemma OneReceipt(t: Tables, r: Receipt, s: Receipt)
    requires TablesOk(t) && r in t.receipts && s in t.receipts && r.approval == s.approval
    ensures r == s
  {
    hide Latest, HasReceipt;
    assert ClaimOk(t, r.job) && ClaimOk(t, s.job);
    assert Approval(r.approval, r.job, t.claims[r.job].fingerprint) in t.approvals;
    assert Approval(s.approval, s.job, t.claims[s.job].fingerprint) in t.approvals;
    var i :| 0 <= i < |t.receipts| && t.receipts[i] == r;
    var j :| 0 <= j < |t.receipts| && t.receipts[j] == s;
  }

  lemma ReceiptFound(t: Tables, approval: string)
    requires TablesOk(t)
    ensures var r := ReceiptOf(t, approval);
      && (r.Some? <==> exists s :: s in t.receipts && s.approval == approval)
      && (r.Some? ==> forall s :: s in t.receipts && s.approval == approval ==> s == r.value)
  {
    hide TablesOk;
    if s :| s in t.receipts && s.approval == approval {
      var i :| 0 <= i < |t.receipts| && t.receipts[i] == s;
      ReceiptIn(t, approval);
      forall s | s in t.receipts && s.approval == approval ensures s == ReceiptOf(t, approval).value {
        OneReceipt(t, s, ReceiptOf(t, approval).value);
      }
    }
  }

  /** What a claim hands out, and leaves behind. */
  ghost predicate HandsOut(env: Env, t: Tables, ready: Ready, a: Approval, attempt: string, u: Tables, c: Claimed) {
    && c.request.job == a.job && RequestedFrom(env, ready, c.request)
    && env.fingerprint(a.job, ready[a.job].hash, c.request.target) == a.fingerprint
    && if c.Persisted? then u == t && c.receipt in t.receipts && c.receipt.approval == a.id
       else
         && (forall r :: r in t.receipts ==> r.approval != a.id)
         && c == (if a.job in t.attempts then Waiting(c.request, t.attempts[a.job].id) else Allowed(c.request, attempt))
         && u == t.(claims := t.claims[a.job := Claim(a.id, a.fingerprint)],
                    attempts := t.attempts[a.job := Attempt(a.id, c.attempt)])
  }

  lemma RequestIs(env: Env, t: Tables, ready: Ready, a: Approval)
    requires CurrentIs(env, t, ready, a.job, a.fingerprint)
    ensures a.job in ready && CurrentPlan(env, t, ready, a.job).Some?
    ensures var p := CurrentPlan(env, t, ready, a.job).value;
      && p.fingerprint == a.fingerprint && RequestFor(env, a.job, p).job == a.job
      && RequestedFrom(env, ready, RequestFor(env, a.job, p))
      && env.fingerprint(a.job, ready[a.job].hash, RequestFor(env, a.job, p).target) == a.fingerprint
      && RequestFor(env, a.job, p).key == env.exportKey(a.job, ready[a.job].hash)
  {
    hide CurrentPlan, Selects, Plain;
    CurrentDecided(env, t, ready, a.job);
  }

  /** The approval of this identifier is found. */
  lemma ApprovalFound(t: Tables, a: Approval)
    requires TablesOk(t) && a in t.approvals
    ensures ApprovalById(t.approvals, a.id) == Some(a)
  {
    hide ClaimOk, HasReceipt, PlansOk;
    NoSuchApproval(t.approvals, a.id);
  }

  /** A claim under a stored approval of the current plan. */
  lemma ClaimUnder(env: Env, t: Tables, ready: Ready, a: Approval, attempt: string)
    requires TablesOk(t) && a in t.approvals && CurrentIs(env, t, ready, a.job, a.fingerprint)
    ensures var (u, out) := ClaimExport(env, t, ready, a.id, attempt);
      if MayClaim(env, t, ready, a, attempt) then out.Done? && HandsOut(env, t, ready, a, attempt, u, out.value)
      else u == t && out.Refused?
  {
    hide CurrentPlan, ApprovalById, ReceiptOf, TablesOk, CurrentIs, RequestFor, RequestedFrom;
    ApprovalFound(t, a);
    RequestIs(env, t, ready, a);
    ReceiptFound(t, a.id);
    assert a == Approval(a.id, a.job, a.fingerprint);
    if ReceiptOf(t, a.id).None? {
      ClaimWithout(env, t, ready, a, attempt);
    }
  }

  lemma ClaimWithout(env: Env, t: Tables, ready: Ready, a: Approval, attempt: string)
    requires a.job in ready && ReceiptOf(t, a.id).None? && ApprovalById(t.approvals, a.id) == Some(a)
    requires var p := CurrentPlan(env, t, ready, a.job); p.Some? && p.value.fingerprint == a.fingerprint
    ensures var (u, out) := ClaimExport(env, t, ready, a.id, attempt);
      if !Unclaimed(t, a, attempt) then u == t && out.Refused?
      else
        var request := RequestFor(env, a.job, CurrentPlan(env, t, ready, a.job).value);
        && out == Done(if a.job in t.attempts then Waiting(request, t.attempts[a.job].id)
                       else Allowed(request, attempt))
        && u == t.(claims := t.claims[a.job := Claim(a.id, a.fingerprint)],
                   attempts := t.attempts[a.job := Attempt(a.id, out.value.attempt)])
  {
    hide CurrentPlan, ApprovalById, ReceiptOf, RequestFor;
    if a.job in t.claims && t.claims[a.job] == Claim(a.id, a.fingerprint) {
      assert t.claims == t.claims[a.job := Claim(a.id, a.fingerprint)];
    }
    if a.job in t.attempts && t.attempts[a.job].approval == a.id {
      assert t.attempts[a.job] == Attempt(a.id, t.attempts[a.job].id);
      assert t.attempts == t.attempts[a.job := Attempt(a.id, t.attempts[a.job].id)];
    }
  }

  /** Claiming an export. It is refused exactly if the approval is not one of the current plan, somebody
      else has the job, or a stored receipt does not belong to it, and then nothing changed; otherwise
      the request carries, cell by cell, the values of the artifact of this moment, and either the
      receipt is stored already or the job is claimed with one open attempt. */
  lemma ClaimDecided(env: Env, t: Tables, ready: Ready, approval: string, attempt: string)
    requires TablesOk(t)
    ensures var (u, out) := ClaimExport(env, t, ready, approval, attempt);
      && (out.Done? <==> exists a :: a in t.approvals && a.id == approval && MayClaim(env, t, ready, a, attempt))
      && (out.Done? ==> forall a :: a in t.approvals && a.id == approval ==>
            HandsOut(env, t, ready, a, attempt, u, out.value))
      && (out.Refused? ==> u == t)
  {
    hide CurrentPlan, ApprovalById, ReceiptOf, TablesOk, CurrentIs, HandsOut, RequestFor, MayClaim;
    if a :| a in t.approvals && a.id == approval {
      ApprovalFound(t, a);
      forall b | b in t.approvals && b.id == approval ensures b == a {
        ApprovalFound(t, b);
      }
      if CurrentIs(env, t, ready, a.job, a.fingerprint) {
        ClaimUnder(env, t, ready, a, attempt);
      } else {
        ClaimStale(env, t, ready, a, attempt);
      }
    } else {
      NoneFound(t, approval);
    }
  }

  lemma ClaimStale(env: Env, t: Tables, ready: Ready, a: Approval, attempt: string)
    requires ApprovalById(t.approvals, a.id) == Some(a) && !CurrentIs(env, t, ready, a.job, a.fingerprint)
    ensures ClaimExport(env, t, ready, a.id, attempt) == (t, Refused) && !MayClaim(env, t, ready, a, attempt)
  {
    hide CurrentPlan, ApprovalById, PlanFor;
    if a.job in ready {
      CurrentDecided(env, t, ready, a.job);
    }
  }

  lemma NoneFound(t: Tables, id: string)
    requires forall a :: a in t.approvals ==> a.id != id
    ensures ApprovalById(t.approvals, id).None?
  {
    hide ApprovalById;
  }

  // ---- Receipts -----------------------------------------------------------------------------------------------------

  /** Persisting a receipt. A caller without the claim is refused; a receipt stored under the approval is
      returned if it is the same; and the open attempt alone, once, stores a new one and is used up. */
  lemma PersistDecided(t: Tables, approval: string, request: Request, attempt: string, wrote: WriteReceipt)
    requires TablesOk(t)
    ensures var (u, out) := Persist(t, approval, request, attempt, wrote);
      var job, row := request.job, Receipt(request.job, approval, request.key, wrote.destination, wrote.at);
      if job !in t.claims || t.claims[job].approval != approval then u == t && out.Refused?
      else if exists r :: r in t.receipts && r.approval == approval then
        u == t && out == if row in t.receipts then Done(row) else Refused
      else if job in t.attempts && t.attempts[job] == Attempt(approval, attempt) then
        u == t.(receipts := t.receipts + [row], attempts := t.attempts - {job}) && out == Done(row)
      else u == t && out.Refused?
  {
    hide ReceiptOf, TablesOk;
    ReceiptFound(t, approval);
    if request.job in t.attempts {
      NoReceiptYet(t, request.job);
    }
  }

  lemma NoReceiptYet(t: Tables, job: string)
    requires TablesOk(t) && job in t.attempts
    ensures forall key: string :: !ReceiptUsed(t, job, key)
  {
  }

  // ---- The backend --------------------------------------------------------------------------------------------------

  /** A receipt of the backend names everything the request names. */
  predicate Confirms(request: Request, wrote: WriteReceipt) {
    && wrote.key == request.key && wrote.spreadsheet == request.target.spreadsheet
    && wrote.sheet == request.target.sheet && wrote.row == request.target.row
    && wrote.destination == request.destination
  }

  /** A caller with a receipt that confirms its request goes on to store it; with another one it is done. */
  function WithReceipt(l: Local, wrote: WriteReceipt): Local
    requires !l.Idle?
  {
    if Confirms(l.request, wrote) then Found(l.approval, l.request, l.attempt, wrote) else Idle
  }

  /** The write of the one caller that may write. The first request under a key is stored, with the time
      of the write, even if the call raises afterwards; a request that is not the stored one changes no
      row. A caller whose write raised has failed, and may look up what is there. */
  lemma WriteDecided(env: Env, w: World, r: nat, at: Time, ending: Ending)
    requires LocalOf(w, r).Holding? && LocalOf(w, r).allowed
    ensures var l, v := LocalOf(w, r), Next(env, w, BackendWrite(r, at, ending));
      var q, rows := l.request, w.rows;
      && v.t == w.t && v.returned == w.returned && v.ready == w.ready && v.writes == w.writes + [q]
      && v.rows == (if ending.RaisedBefore? || q.key in rows then rows
                    else rows[q.key := (q, WriteReceipt(q.key, q.target.spreadsheet, q.target.sheet, q.target.row,
                                                        q.destination, at))])
      && v.callers == w.callers[r := if ending.Returned? && v.rows[q.key].0 == q then WithReceipt(l, v.rows[q.key].1)
                                     else Failed(l.approval, q, l.attempt)]
  {
  }

  /** A lookup, by a caller that may not write, or whose write raised. Without a row the former is done
      and the latter gives its attempt up; a row of another request is an error. */
  lemma LookupDecided(env: Env, w: World, r: nat)
    requires LocalOf(w, r).Failed? || (LocalOf(w, r).Holding? && !LocalOf(w, r).allowed)
    ensures var l, v := LocalOf(w, r), Next(env, w, BackendLookup(r));
      v == w.(callers := w.callers[r :=
                if l.request.key !in w.rows then
                  if l.Failed? then Releasing(l.approval, l.request, l.attempt) else Idle
                else if w.rows[l.request.key].0 != l.request then Idle
                else WithReceipt(l, w.rows[l.request.key].1)])
  {
  }

  /** Giving an attempt up drops it if it is still the open one. */
  lemma ReleaseDecided(env: Env, w: World, r: nat)
    requires LocalOf(w, r).Releasing?
    ensures var l, v := LocalOf(w, r), Next(env, w, ReleaseAttempt(r));
      var job, t := l.request.job, w.t;
      v == w.(callers := w.callers[r := Idle],
              t := if job in t.attempts && t.attempts[job].id == l.attempt then t.(attempts := t.attempts - {job})
                   else t)
  {
  }

  /** A call for an approval with a stored receipt returns it exactly if the backend still has the row of
      this request, confirming it, with the destination and the time of the receipt. */
  lemma AnswerDecided(env: Env, w: World, r: nat, approval: string, attempt: string)
    requires LocalOf(w, r).Idle?
    ensures var out, v := ClaimExport(env, w.t, w.ready, approval, attempt),
      Next(env, w, StartExecute(r, approval, attempt));
      match out.1
      case Refused => v == w
      case Done(Persisted(stored, q)) =>
        if && q.key in w.rows && w.rows[q.key].0 == q && Confirms(q, w.rows[q.key].1)
           && w.rows[q.key].1.destination == stored.destination && w.rows[q.key].1.at == stored.at
        then v == w.(returned := w.returned + [stored]) else v == w
      case Done(c) =>
        v == w.(t := out.0, callers := w.callers[r := Holding(approval, c.request, c.attempt, c.Allowed?)])
  {
    hide ClaimExport;
  }

  // ---- Over every run -----------------------------------------------------------------------------------------------

  /** The claim of this step handed the request out: it is what the artifact of that moment selects, under
      an approval of that plan. */
  ghost predicate HandedAt(env: Env, w: World, s: Step, request: Request) {
    && s.StartExecute? && RequestedFrom(env, w.ready, request)
    && Approval(s.approval, request.job, env.fingerprint(request.job, w.ready[request.job].hash, request.target))
       in w.t.approvals
  }

  ghost predicate Handed(env: Env, steps: seq<Step>, request: Request) {
    exists n :: 0 <= n < |steps| && HandedAt(env, RunAll(env, steps[..n]), steps[n], request)
  }

  /** Everything a caller holds after a step it held before, or was handed in this step. */
  ghost predicate HeldOrHanded(env: Env, w: World, s: Step, v: World) {
    forall r :: r in v.callers && !v.callers[r].Idle? ==>
      || (r in w.callers && !w.callers[r].Idle? && v.callers[r].request == w.callers[r].request)
      || HandedAt(env, w, s, v.callers[r].request)
  }

  /** Everything written after a step was written before, or held by a caller; rows come from writes. */
  ghost predicate WrittenFromHeld(w: World, v: World) {
    && (forall q :: q in v.writes && q !in w.writes ==>
          exists r :: r in w.callers && !w.callers[r].Idle? && w.callers[r].request == q)
    && (forall q :: q in w.writes ==> q in v.writes)
    && (forall key :: key in v.rows && key !in w.rows ==> v.rows[key].0 in v.writes)
    && (forall key :: key in w.rows ==> key in v.rows && v.rows[key] == w.rows[key])
  }

  lemma StepHands(env: Env, w: World, s: Step)
    requires TablesOk(w.t)
    ensures HeldOrHanded(env, w, s, Next(env, w, s))
  {
    hide Prepare, Approve, ClaimExport, Persist, Release, ReceiptMatches, TablesOk, HandedAt, Write, Lookup;
    if s.StartExecute? && LocalOf(w, s.r).Idle? {
      StartHands(env, w, s);
    }
  }

  lemma StepWrites(env: Env, w: World, s: Step)
    ensures WrittenFromHeld(w, Next(env, w, s))
  {
    hide Prepare, Approve, ClaimExport, Persist, Release, ReceiptMatches, Lookup;
  }

  lemma StartHands(env: Env, w: World, s: Step)
    requires TablesOk(w.t) && s.StartExecute?
    ensures var out := ClaimExport(env, w.t, w.ready, s.approval, s.attempt);
      out.1.Done? ==> HandedAt(env, w, s, out.1.value.request)
  {
    hide ClaimExport, TablesOk, RequestedFrom, MayClaim;
    ClaimDecided(env, w.t, w.ready, s.approval, s.attempt);
    var out := ClaimExport(env, w.t, w.ready, s.approval, s.attempt);
    if out.1.Done? {
      var a :| a in w.t.approvals && a.id == s.approval && MayClaim(env, w.t, w.ready, a, s.attempt);
      assert a == Approval(a.id, a.job, a.fingerprint);
    }
  }

  /** In every run: a request that a caller holds, or that was ever written, was handed out by a claim,
      and carries, cell by cell, what the target selected from the artifact the job had at that claim,
      under an approval of that plan; and the backend stores nothing that was not written. */
  lemma {:induction false} WrittenAsClaimed(env: Env, steps: seq<Step>)
    ensures var w := RunAll(env, steps);
      && (forall q :: q in w.writes ==> Handed(env, steps, q))
      && (forall r :: r in w.callers && !w.callers[r].Idle? ==> Handed(env, steps, w.callers[r].request))
      && (forall key :: key in w.rows ==> w.rows[key].0 in w.writes)
    decreases |steps|
  {
    hide Next, HandedAt, Handed, Inv, TablesOk;
    if steps != [] {
      var m := |steps| - 1;
      WrittenAsClaimed(env, steps[..m]);
      var w := RunAll(env, steps[..m]);
      RunsKeep(env, steps[..m]);
      TablesOf(env, w);
      StepHands(env, w, steps[m]);
      StepWrites(env, w, steps[m]);
      forall q | Handed(env, steps[..m], q) || HandedAt(env, w, steps[m], q) ensures Handed(env, steps, q) {
        HandedLater(env, steps, q);
      }
    }
  }

  lemma HandedLater(env: Env, steps: seq<Step>, request: Request)
    requires steps != []
    requires var m := |steps| - 1;
      Handed(env, steps[..m], request) || HandedAt(env, RunAll(env, steps[..m]), steps[m], request)
    ensures Handed(env, steps, request)
  {
    hide RunAll, HandedAt;
    var m := |steps| - 1;
    if HandedAt(env, RunAll(env, steps[..m]), steps[m], request) {
    } else {
      var n :| 0 <= n < m && HandedAt(env, RunAll(env, steps[..m][..n]), steps[..m][n], request);
      assert steps[..m][..n] == steps[..n];
    }
  }

  /** In every run, a stored receipt tells of a row at the backend: the row under its key was written for
      its job, at the destination and the time it names; and an answered call returned a stored one. */
  lemma ReceiptsTell(env: Env, steps: seq<Step>)
    ensures var w := RunAll(env, steps);
      && (forall r :: r in w.t.receipts ==>
            && r.key in w.rows && r.job in w.t.claims && w.t.claims[r.job].approval == r.approval
            && var (request, row) := w.rows[r.key];
               && request.job == r.job && request.key == r.key && request.destination == r.destination
               && row == WriteReceipt(r.key, request.target.spreadsheet, request.target.sheet, request.target.row,
                                      r.destination, r.at))
      && (forall r :: r in w.returned ==> r in w.t.receipts)
  {
    hide Next, Latest, TablesOk, RunAll;
    RunsKeep(env, steps);
    var w := RunAll(env, steps);
    forall r | r in w.t.receipts ensures ReceiptOk(env, w, r) {
    }
  }
}
