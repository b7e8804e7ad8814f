/**
 The export service and its mock backend as objects updated in place. Each service method is one
 transaction: it keeps the tables consistent and what is claimed pinned, and leaves what `ExportModel`
 says.
 */
module ExportService {
  import opened Texts
  import opened ExportModel
  import Protocol = ExportProtocol
  import Cells = ExportCells

  class MockSheetExportBackend {
    var rows: Rows

    constructor ()
      ensures rows == map[]
    {
      rows := map[];
    }

    method WriteRow(request: Request, now: Time) returns (out: Answer<WriteReceipt>)
      modifies this
      ensures (rows, out) == Write(old(rows), request, now)
      ensures old(rows).Keys <= rows.Keys && forall key :: key in old(rows) ==> rows[key] == old(rows)[key]
      ensures out.Done? ==> Lookup(rows, request) == Done(Some(out.value))
    {
      if request.key in rows {
        var (stored, receipt) := rows[request.key];
        if stored != request {
          return Refused;
        }
        return Done(receipt);
      }
      var receipt := ReceiptFor(request, now);
      rows := rows[request.key := (request, receipt)];
      return Done(receipt);
    }
  }

  class ExportService {
    const env: Env
    var tables: Tables

    ghost predicate Valid()
      reads this
    {
      Protocol.TablesOk(tables)
    }

    constructor (env: Env)
      ensures Valid() && this.env == env && tables == Tables(map[], [], map[], map[], [])
    {
      this.env := env;
      tables := Tables(map[], [], map[], map[], []);
    }

    method PrepareExport(ready: Ready, job: string, target: Target) returns (out: Answer<Plan>)
      requires Valid()
      modifies this`tables
      ensures Valid() && Protocol.Grows(old(tables), tables)
      ensures (tables, out) == Prepare(env, old(tables), ready, job, target)
      ensures out.Refused? <==> Cells.CauseOf(env, old(tables), ready, job, target).Some?
      ensures out.Done? ==> job in ready && CurrentPlan(env, tables, ready, job) == Some(out.value)
      ensures out.Done? ==> Cells.PlanFor(env, job, target, ready[job], out.value)
      ensures out.Refused? ==> tables == old(tables)
    {
      hide CurrentPlan, SafeCells, CellsFor, Protocol.TablesOk, Protocol.Grows, Cells.CauseOf, Cells.PlanFor;
      Protocol.PrepareGrows(env, tables, ready, job, target);
      Cells.PrepareDecided(env, tables, ready, job, target);
      PrepareMeans(env, tables, ready, job, target);
      if job !in ready {
        return Refused;
      }
      var artifact := ready[job];
      var cells := CellsFor(target, artifact);
      if cells.None? {
        return Refused;
      }
      var fp := env.fingerprint(job, artifact.hash, target);
      if job in tables.claims && tables.claims[job].fingerprint != fp {
        return Refused;
      }
      if !SafeCells(cells.value) {
        return Refused;
      }
      var before, row, rows := tables, Plan(artifact.hash, target, cells.value, fp), PlansOf(tables, job);
      var known := false;
      for i := 0 to |rows|
        invariant known <==> exists k :: 0 <= k < i && rows[k].fingerprint == fp
      {
        known := known || rows[i].fingerprint == fp;
      }
      if !known {
        tables := tables.(plans := tables.plans[job := rows + [row]]);
      }
      var current := CurrentPlan(env, tables, ready, job);
      if current != Some(row) {
        tables := before;
        return Refused;
      }
      return Done(row);
    }

    /** The answer is an approval of the current plan, and the only one it will ever get: asking again,
        under whatever identifier, gives the same one and stores nothing. */
    method ApproveExport(ready: Ready, job: string, fp: string, id: string) returns (out: Answer<string>)
      requires Valid()
      modifies this`tables
      ensures Valid() && Protocol.Grows(old(tables), tables)
      ensures (tables, out) == Approve(env, old(tables), ready, job, fp, id)
      ensures out.Done? ==> Approval(out.value, job, fp) in tables.approvals
      ensures out.Done? ==> Protocol.Latest(tables, job).Some? && Protocol.Latest(tables, job).value.fingerprint == fp
      ensures out.Done? ==> forall other :: Approve(env, tables, ready, job, fp, other) == (tables, out)
      ensures out.Done? ==> Cells.CurrentIs(env, old(tables), ready, job, fp)
      ensures out.Refused? ==> tables == old(tables)
    {
      hide CurrentPlan, FirstApproval, ApprovalById, Protocol.TablesOk, Protocol.Grows, Protocol.Latest,
        Cells.CurrentIs;
      Cells.ApproveDecided(env, tables, ready, job, fp, id);
      Protocol.ApproveGrows(env, tables, ready, job, fp, id);
      ApproveMeans(env, tables, ready, job, fp, id);
      if job !in ready {
        return Refused;
      }
      var plan := CurrentPlan(env, tables, ready, job);
      if plan.None? || plan.value.fingerprint != fp {
        return Refused;
      }
      var existing := FirstApproval(tables.approvals, job, fp);
      if existing.Some? {
        return Done(existing.value.id);
      }
      if ApprovalById(tables.approvals, id).Some? {
        return Refused;
      }
      tables := tables.(approvals := tables.approvals + [Approval(id, job, fp)]);
      return Done(id);
    }

    /** Claim the job for this approval, then open an attempt or join the open one. */
    method ClaimExportLocked(ready: Ready, approval: string, attempt: string) returns (out: Answer<Claimed>)
      requires Valid()
      modifies this`tables
      ensures Valid() && Protocol.Grows(old(tables), tables)
      ensures (tables, out) == ClaimExport(env, old(tables), ready, approval, attempt)
      ensures Granted(env, old(tables), tables, approval, out)
      ensures out.Done? <==> exists a ::
        a in old(tables).approvals && a.id == approval && Cells.MayClaim(env, old(tables), ready, a, attempt)
      ensures out.Done? ==> forall a :: a in old(tables).approvals && a.id == approval ==>
        Cells.HandsOut(env, old(tables), ready, a, attempt, tables, out.value)
    {
      hide CurrentPlan, ApprovalById, ReceiptOf, RequestFor, Protocol.TablesOk, Protocol.Grows, Granted, Cells.MayClaim,
        Cells.HandsOut;
      Cells.ClaimDecided(env, tables, ready, approval, attempt);
      Protocol.ClaimGrows(env, tables, ready, approval, attempt);
      ClaimMeans(env, tables, ready, approval, attempt);
      var before, found := tables, ApprovalById(tables.approvals, approval);
      if found.None? || found.value.job !in ready {
        return Refused;
      }
      var a := found.value;
      var plan := CurrentPlan(env, tables, ready, a.job);
      if plan.None? || plan.value.fingerprint != a.fingerprint {
        return Refused;
      }
      var request, stored := RequestFor(env, a.job, plan.value), ReceiptOf(tables, approval);
      if stored.Some? {
        if stored.value.job != a.job || stored.value.key != request.key {
          return Refused;
        }
        return Done(Persisted(stored.value, request));
      }
      if a.job !in tables.claims && !(exists j :: j in tables.claims && tables.claims[j].approval == approval) {
        tables := tables.(claims := tables.claims[a.job := Claim(approval, a.fingerprint)]);
      }
      if a.job !in tables.claims || tables.claims[a.job] != Claim(approval, a.fingerprint) {
        tables := before;
        return Refused;
      }
      if a.job in tables.attempts {
        var open := tables.attempts[a.job];
        if open.approval != approval {
          tables := before;
          return Refused;
        }
        return Done(Waiting(request, open.id));
      }
      if AttemptUsed(tables, approval, attempt) {
        tables := before;
        return Refused;
      }
      tables := tables.(attempts := tables.attempts[a.job := Attempt(approval, attempt)]);
      return Done(Allowed(request, attempt));
    }

    /** Insert the receipt and consume the attempt together, or return the equal stored receipt. */
    method PersistReceiptLocked(approval: string, request: Request, attempt: string, wrote: WriteReceipt)
      returns (out: Answer<Receipt>)
      requires Valid()
      modifies this`tables
      ensures Valid() && Protocol.Grows(old(tables), tables)
      ensures (tables, out) == Persist(old(tables), approval, request, attempt, wrote)
      ensures out.Done? ==> out.value in tables.receipts && request.job !in tables.attempts
      ensures out.Refused? ==> tables == old(tables)
    {
      hide ReceiptOf, Protocol.TablesOk, Protocol.Grows;
      PersistMeans(tables, approval, request, attempt, wrote);
      var job := request.job;
      if job !in tables.claims || tables.claims[job].approval != approval {
        return Refused;
      }
      var row, stored := Receipt(job, approval, request.key, wrote.destination, wrote.at), ReceiptOf(tables, approval);
      if stored.Some? {
        StoredIsIn(tables, approval);
        return if stored.value == row then Done(row) else Refused;
      }
      if job !in tables.attempts || tables.attempts[job] != Attempt(approval, attempt) {
        return Refused;
      }
      if ReceiptUsed(tables, job, request.key) {
        return Refused;
      }
      tables := tables.(receipts := tables.receipts + [row]);
      tables := tables.(attempts := tables.attempts - {job});
      return Done(row);
    }

    /** Only the open attempt itself can be given up, once; the claim and every receipt stay. */
    method ReleaseAttemptLocked(job: string, attempt: string) returns (out: Answer<()>)
      requires Valid()
      modifies this`tables
      ensures Valid() && Protocol.Grows(old(tables), tables)
      ensures (tables, out) == Release(old(tables), job, attempt)
      ensures out.Done? <==> job in old(tables).attempts && old(tables).attempts[job].id == attempt
      ensures out.Done? ==> job !in tables.attempts && Release(tables, job, attempt) == (tables, Refused)
      ensures tables.(attempts := old(tables).attempts) == old(tables)
      ensures forall other :: other in old(tables).attempts && other != job ==>
        other in tables.attempts && tables.attempts[other] == old(tables).attempts[other]
      ensures out.Refused? ==> tables == old(tables)
    {
      hide Protocol.TablesOk, Protocol.Grows;
      Protocol.DropAttemptOk(tables, job);
      Protocol.GrowsRefl(tables);
      if job !in tables.attempts || tables.attempts[job].id != attempt {
        return Refused;
      }
      tables := tables.(attempts := tables.attempts - {job});
      return Done(());
    }
  }

  lemma PrepareMeans(env: Env, t: Tables, ready: Ready, job: string, target: Target)
    ensures var (u, out) := Prepare(env, t, ready, job, target);
      && (out.Done? ==> job in ready && CurrentPlan(env, u, ready, job) == Some(out.value))
      && (out.Refused? ==> u == t)
  {
    hide CurrentPlan, SafeCells, CellsFor;
  }

  lemma {:induction false} FirstOfMore(rows: seq<Approval>, a: Approval)
    requires FirstApproval(rows, a.job, a.fingerprint).None?
    ensures FirstApproval(rows + [a], a.job, a.fingerprint) == Some(a)
  {
    if rows == [] {
      assert rows + [a] == [a];
    } else {
      FirstOfMore(rows[1..], a);
      assert (rows + [a])[1..] == rows[1..] + [a];
    }
  }

  lemma SamePlan(env: Env, t: Tables, u: Tables, ready: Ready, job: string)
    requires job in ready && u.plans == t.plans
    ensures CurrentPlan(env, u, ready, job) == CurrentPlan(env, t, ready, job)
  {
    hide CellsFor, SafeCells;
  }

  lemma ApproveMeans(env: Env, t: Tables, ready: Ready, job: string, fp: string, id: string)
    ensures var (u, out) := Approve(env, t, ready, job, fp, id);
      out.Done? ==>
        && Approval(out.value, job, fp) in u.approvals
        && Protocol.Latest(u, job).Some? && Protocol.Latest(u, job).value.fingerprint == fp
        && forall other :: Approve(env, u, ready, job, fp, other) == (u, out)
  {
    hide CurrentPlan, ApprovalById, Protocol.Latest;
    var (u, out) := Approve(env, t, ready, job, fp, id);
    if out.Done? {
      SamePlan(env, t, u, ready, job);
      Protocol.CurrentIsLatest(env, u, ready, job);
      var existing := FirstApproval(t.approvals, job, fp);
      if existing.Some? {
        assert existing.value == Approval(out.value, job, fp);
      } else {
        FirstOfMore(t.approvals, Approval(id, job, fp));
      }
    }
  }

  /** What the answer of a claim call means: the request is the one that the job is pinned to, under this
      approval; the attempt is open and no receipt exists; and it is this caller's own to write if
      there was no attempt before. A persisted answer changes nothing, and neither does a refusal. */
  ghost predicate Granted(env: Env, was: Tables, t: Tables, approval: string, out: Answer<Claimed>) {
    && (out.Done? && !out.value.Persisted? ==>
          var job := out.value.request.job;
          && Protocol.Pinned(env, t, out.value.request, approval)
          && job in t.attempts && t.attempts[job] == Attempt(approval, out.value.attempt)
             && !Protocol.HasReceipt(t, job)
          && (out.value.Allowed? <==> job !in was.attempts))
    && (out.Done? && out.value.Persisted? ==> t == was && out.value.receipt in t.receipts)
    && (out.Refused? ==> t == was)
  }

  lemma ClaimMeans(env: Env, t: Tables, ready: Ready, approval: string, attempt: string)
    requires Protocol.TablesOk(t)
    ensures var (u, out) := ClaimExport(env, t, ready, approval, attempt); Granted(env, t, u, approval, out)
  {
    hide CurrentPlan, ApprovalById, ReceiptOf, Protocol.TablesOk, Protocol.HasReceipt, Protocol.Grows, Protocol.Pinned;
    Protocol.ClaimGrows(env, t, ready, approval, attempt);
    Protocol.ClaimPins(env, t, ready, approval, attempt);
    var (u, out) := ClaimExport(env, t, ready, approval, attempt);
    if out.Done? && !out.value.Persisted? && out.value.request.job in u.attempts {
      OpenHasNone(u, out.value.request.job);
    }
  }

  lemma OpenHasNone(t: Tables, job: string)
    requires Protocol.TablesOk(t) && job in t.attempts
    ensures !Protocol.HasReceipt(t, job)
  {
  }

  lemma PersistMeans(t: Tables, approval: string, request: Request, attempt: string, wrote: WriteReceipt)
    requires Protocol.TablesOk(t)
    ensures var (u, out) := Persist(t, approval, request, attempt, wrote);
      && Protocol.TablesOk(u) && Protocol.Grows(t, u) && (out.Refused? ==> u == t)
      && (out.Done? ==> request.job !in u.attempts)
  {
    hide ReceiptOf, Protocol.TablesOk, Protocol.Grows, Protocol.HasReceipt;
    Protocol.GrowsRefl(t);
    StoredIsIn(t, approval);
    var job, row := request.job, Receipt(request.job, approval, request.key, wrote.destination, wrote.at);
    if job in t.attempts {
      OpenHasNone(t, job);
      if ReceiptOf(t, approval) == Some(row) {
        InHas(t, row);
      }
      if job in t.claims && t.claims[job].approval == approval {
        Protocol.NewReceiptOk(t, row);
      }
    }
  }

  lemma InHas(t: Tables, row: Receipt)
    requires row in t.receipts
    ensures Protocol.HasReceipt(t, row.job)
  {
  }

  lemma StoredIsIn(t: Tables, approval: string)
    ensures ReceiptOf(t, approval).Some? ==> ReceiptOf(t, approval).value in t.receipts
  {
  }
}
