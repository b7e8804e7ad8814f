/**
 The approval-gated sheet export: durable plans, approvals, claims, attempts and receipts around a
 backend write that no transaction covers. Fingerprints and export keys are opaque functions, which
 may collide.
 */
module ExportModel {
  import opened Texts

  type Time = int

  datatype Target = Target(spreadsheet: string, sheet: string, row: string, columns: map<string, string>)

  datatype Artifact = Artifact(hash: string, values: map<string, string>)

  /** A row of `sheet_export_plans`. */
  datatype Plan = Plan(artifactHash: string, target: Target, cells: map<string, string>, fingerprint: string)

  /** An approval record of type `sheet_export`. */
  datatype Approval = Approval(id: string, job: string, fingerprint: string)

  datatype Claim = Claim(approval: string, fingerprint: string)

  datatype Attempt = Attempt(approval: string, id: string)

  /** A row of `sheet_export_receipts`. */
  datatype Receipt = Receipt(job: string, approval: string, key: string, destination: string, at: Time)

  datatype Request = Request(job: string, key: string, target: Target, destination: string, cells: map<string, string>)

  /** What the backend hands back for a stored row. */
  datatype WriteReceipt = WriteReceipt(key: string, spreadsheet: string, sheet: string, row: string,
                                       destination: string, at: Time)

  datatype Env = Env(
    fingerprint: (string, string, Target) -> string,
    exportKey: (string, string) -> string,
    destination: Target -> string)

  /** The durable tables. `plans` holds each job's rows in insertion order; claims and attempts have
      one row per job by primary key. */
  datatype Tables = Tables(
    plans: map<string, seq<Plan>>, approvals: seq<Approval>, claims: map<string, Claim>,
    attempts: map<string, Attempt>, receipts: seq<Receipt>)

  /** Jobs that are succeeded and bound to a manifest, with the artifact that can be loaded for them. */
  type Ready = map<string, Artifact>

  datatype Answer<T> = Done(value: T) | Refused

  function PlansOf(t: Tables, job: string): seq<Plan> {
    if job in t.plans then t.plans[job] else []
  }

  /** The cells a target selects from an artifact, if every source is there. */
  function CellsFor(target: Target, artifact: Artifact): Option<map<string, string>> {
    if forall c :: c in target.columns ==> target.columns[c] in artifact.values
    then Some(map c | c in target.columns :: artifact.values[target.columns[c]]) else None
  }

  /** A cell that a spreadsheet would take for a formula. */
  predicate FormulaLike(value: string) {
    value != "" && value[0] in "=+-@"
  }

  predicate SafeCells(cells: map<string, string>) {
    forall c :: c in cells ==> !FormulaLike(cells[c])
  }

  // ---- Transactions -------------------------------------------------------------------------------------------------

  /** `_validated_current_plan_locked`: the latest plan, rebuilt from the artifact and compared. */
  function CurrentPlan(env: Env, t: Tables, ready: Ready, job: string): Option<Plan>
    requires job in ready
  {
    var rows := PlansOf(t, job);
    if rows == [] then None
    else
      var p := rows[|rows| - 1];
      var cells := CellsFor(p.target, ready[job]);
      if || ready[job].hash != p.artifactHash || cells != Some(p.cells) || !SafeCells(p.cells)
         || env.fingerprint(job, p.artifactHash, p.target) != p.fingerprint
      then None else Some(p)
  }

  /** `prepare_export`: insert the plan unless its fingerprint is stored, then require that the
      current plan is this one. */
  function Prepare(env: Env, t: Tables, ready: Ready, job: string, target: Target): (Tables, Answer<Plan>) {
    if job !in ready then (t, Refused)
    else
      var artifact, cells := ready[job], CellsFor(target, ready[job]);
      var fp := env.fingerprint(job, artifact.hash, target);
      if || cells.None? || (job in t.claims && t.claims[job].fingerprint != fp) || !SafeCells(cells.value)
      then (t, Refused)
      else
        var rows, row := PlansOf(t, job), Plan(artifact.hash, target, cells.value, fp);
        var t1 := if exists i ::
          0 <= i < |rows| && rows[i].fingerprint == fp then t else t.(plans := t.plans[job := rows + [row]]);
        if CurrentPlan(env, t1, ready, job) == Some(row) then (t1, Done(row)) else (t, Refused)
  }

  /** `approve_export`: an existing approval of the current plan, or a new one under a fresh id. */
  function Approve(env: Env, t: Tables, ready: Ready, job: string, fp: string, id: string): (Tables, Answer<string>) {
    if job !in ready then (t, Refused)
    else
      var p := CurrentPlan(env, t, ready, job);
      if p.None? || p.value.fingerprint != fp then (t, Refused)
      else
        var existing := FirstApproval(t.approvals, job, fp);
        if existing.Some? then (t, Done(existing.value.id))
        else if ApprovalById(t.approvals, id).Some? then (t, Refused)
        else (t.(approvals := t.approvals + [Approval(id, job, fp)]), Done(id))
  }

  function FirstApproval(rows: seq<Approval>, job: string, fp: string): (a: Option<Approval>)
    ensures a.Some? ==> a.value in rows && a.value.job == job && a.value.fingerprint == fp
  {
    if rows == [] then None
    else if rows[0].job == job && rows[0].fingerprint == fp then Some(rows[0])
    else FirstApproval(rows[1..], job, fp)
  }

  function ApprovalById(rows: seq<Approval>, id: string): (a: Option<Approval>)
    ensures a.Some? ==> a.value in rows && a.value.id == id
  {
    if rows == [] then None else if rows[0].id == id then Some(rows[0]) else ApprovalById(rows[1..], id)
  }

  function RequestFor(env: Env, job: string, p: Plan): Request {
    Request(job, env.exportKey(job, p.artifactHash), p.target, env.destination(p.target), p.cells)
  }

  datatype Claimed =
    | Persisted(receipt: Receipt, request: Request)   // a receipt is stored; it is checked against the backend
    | Allowed(request: Request, attempt: string)      // this caller opened the attempt and may write
    | Waiting(request: Request, attempt: string)      // somebody else's attempt is open

  function ReceiptOf(t: Tables, approval: string): Option<Receipt> {
    if exists i :: 0 <= i < |t.receipts| && t.receipts[i].approval == approval
    then Some(FirstReceipt(t.receipts, approval)) else None
  }

  function FirstReceipt(rows: seq<Receipt>, approval: string): (r: Receipt)
    requires exists i :: 0 <= i < |rows| && rows[i].approval == approval
    ensures r in rows && r.approval == approval
  {
    if rows[0].approval == approval then rows[0] else FirstReceipt(rows[1..], approval)
  }

  /** The unique columns of the attempts table. */
  predicate AttemptUsed(t: Tables, approval: string, attempt: string) {
    exists j :: j in t.attempts && (t.attempts[j].id == attempt || t.attempts[j].approval == approval)
  }

  /** `_claim_export_locked`. */
  function ClaimExport(env: Env, t: Tables, ready: Ready, approval: string,
                       attempt: string): (Tables, Answer<Claimed>)
  {
    var found := ApprovalById(t.approvals, approval);
    if found.None? || found.value.job !in ready then (t, Refused)
    else
      var a := found.value;
      var p := CurrentPlan(env, t, ready, a.job);
      if p.None? || p.value.fingerprint != a.fingerprint then (t, Refused)
      else
        var request, stored := RequestFor(env, a.job, p.value), ReceiptOf(t, approval);
        if stored.Some? then
          if stored.value.job != a.job || stored.value.key != request.key then (t, Refused)
          else (t, Done(Persisted(stored.value, request)))
        else
          var t1 := if a.job in t.claims || exists j :: j in t.claims && t.claims[j].approval == approval then t
                    else t.(claims := t.claims[a.job := Claim(approval, a.fingerprint)]);
          if a.job !in t1.claims || t1.claims[a.job] != Claim(approval, a.fingerprint) then (t, Refused)
          else if a.job in t1.attempts then
            if t1.attempts[a.job].approval != approval then (t, Refused)
            else (t1, Done(Waiting(request, t1.attempts[a.job].id)))
          else if AttemptUsed(t1, approval, attempt) then (t, Refused)
          else (t1.(attempts := t1.attempts[a.job := Attempt(approval, attempt)]), Done(Allowed(request, attempt)))
  }

  /** The unique columns of the receipts table. */
  predicate ReceiptUsed(t: Tables, job: string, key: string) {
    exists i :: 0 <= i < |t.receipts| && t.receipts[i].job == job && t.receipts[i].key == key
  }

  /** `_persist_receipt_locked`: an equal stored receipt, or a new one that consumes the attempt. */
  function Persist(t: Tables, approval: string, request: Request, attempt: string,
                   wrote: WriteReceipt): (Tables, Answer<Receipt>)
  {
    var job, row := request.job, Receipt(request.job, approval, request.key, wrote.destination, wrote.at);
    if job !in t.claims || t.claims[job].approval != approval then (t, Refused)
    else
      var stored := ReceiptOf(t, approval);
      if stored.Some? then (t, if stored.value == row then Done(row) else Refused)
      else if job !in t.attempts || t.attempts[job] != Attempt(approval, attempt) then (t, Refused)
      else if ReceiptUsed(t, job, request.key) then (t, Refused)
      else (t.(receipts := t.receipts + [row], attempts := t.attempts - {job}), Done(row))
  }

  /** `_release_attempt_locked`. */
  function Release(t: Tables, job: string, attempt: string): (Tables, Answer<()>) {
    if job in t.attempts && t.attempts[job].id == attempt then (t.(attempts := t.attempts - {job}), Done(()))
      else (t, Refused)
  }

  // ---- The backend --------------------------------------------------------------------------------------------------

  type Rows = map<string, (Request, WriteReceipt)>

  function ReceiptFor(r: Request, at: Time): WriteReceipt {
    WriteReceipt(r.key, r.target.spreadsheet, r.target.sheet, r.target.row, r.destination, at)
  }

  /** `MockSheetExportBackend.write`: first write per key wins; the same request reads it back. */
  function Write(rows: Rows, r: Request, at: Time): (Rows, Answer<WriteReceipt>) {
    if r.key in rows then (rows, if rows[r.key].0 == r then Done(rows[r.key].1) else Refused)
    else (rows[r.key := (r, ReceiptFor(r, at))], Done(ReceiptFor(r, at)))
  }

  function Lookup(rows: Rows, r: Request): Answer<Option<WriteReceipt>> {
    if r.key !in rows then Done(None) else if rows[r.key].0 == r then Done(Some(rows[r.key].1)) else Refused
  }

  /** `_validate_backend_receipt`. */
  predicate ReceiptMatches(r: Request, w: WriteReceipt) {
    w == ReceiptFor(r, w.at)
  }
}
