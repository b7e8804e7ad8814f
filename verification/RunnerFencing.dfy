/**
 What holds of a run row whatever calls arrive, from any number of runners, in any order, with any
 arguments: the external outcome is written only under the current lease, and a runner whose lease
 was taken over can never write again.
 */
module RunnerFencing {
  import opened Texts
  import opened RunnerTables

  /** The lease token that a call presents, when its WHERE clause demands one. */
  function TokenOf(call: Call): Option<string> {
    match call
    case RecordAcceptance(_, token, _, _, _) => Some(token)
    case RecordLookupAcceptance(_, token, _, _, _) => Some(token)
    case RecordSubmitFailure(_, token, _, _) => Some(token)
    case RecordPollFailure(_, token, _, _, _, _) => Some(token)
    case RecordPollStatus(_, token, _, _, _, _, _, _, _, _) => Some(token)
    case ReconcileClaimedTerminalAfterCancel(_, token) => Some(token)
    case RecordExhaustedPollAfterCancel(_, token, _) => Some(token)
    case MarkPollReconciliation(_, token, _) => Some(token)
    case MarkRetryConsumed(_, token) => Some(token)
    case MarkClaimedReconciliation(_, token, _) => Some(token)
    case MarkClaimedCancelLookup(_, token, _) => Some(token)
    case BeginCancel(_, token) => Some(token)
    case RecordCancelFailure(_, token, _, _) => Some(token)
    case MarkKnownCancelReconciliation(_, token, _) => Some(token)
    case RecordRemoteCanceled(_, token, _) => Some(token)
    case ReleaseLease(_, token) => Some(token)
    case _ => None
  }

  /** The lease that a claim puts on the row. */
  function LeaseOf(call: Call): Option<Lease> {
    match call
    case ClaimSubmission(_, _, _, _, _, lease) => Some(lease)
    case ClaimExisting(_, _, _, _, lease) => Some(lease)
    case ClaimCanceledLookup(_, _, lease) => Some(lease)
    case _ => None
  }

  /** Job rows, budgets and logs are the only targets of the second statement. */
  lemma FinishKeepsRuns(db: Db, call: Call)
    ensures Finish(db, call).0.runs == db.runs
  {
    hide OnJob, JobActive, JobIs;
  }

  /** The run rows after the update statement. */
  lemma UpdateRunRows(db: Db, call: Call)
    ensures var d, k := UpdateRun(db, call).0, call.k;
      || d.runs == db.runs
      || (k in db.runs && TouchesRun(call) && Matches(db, call, db.runs[k])
          && UpdateOk(db.runs, k, db.runs[k], After(call, db.runs[k]))
          && d.runs == db.runs[k := After(call, db.runs[k])])
  {
    hide Matches, After, UpdateOk, Finish;
    FinishKeepsRuns(db, call);
    if call.k in db.runs {
      FinishKeepsRuns(db.(runs := db.runs[call.k := After(call, db.runs[call.k])]), call);
    }
  }

  lemma ApplyRuns(db: Db, call: Call)
    ensures var d := Apply(db, call).0;
      d.runs == db.runs || (WithInsert(db, call).Some? && d == UpdateRun(WithInsert(db, call).value, call).0)
  {
    hide UpdateRun, WithInsert, JobActive;
  }

  /** A row of another key, or of the call's own key when it exists, is either untouched or updated
      as the call's SET clause says, past its WHERE clause and every trigger. */
  lemma RowAfter(db: Db, call: Call, k: RunKey)
    requires k in db.runs
    ensures var d := Apply(db, call).0;
      && k in d.runs
      && (d.runs[k] == db.runs[k]
          || (call.k == k && TouchesRun(call) && Matches(db, call, db.runs[k]) && d.runs[k] == After(call, db.runs[k])
              && UpdateOk(db.runs, k, db.runs[k], d.runs[k])))
  {
    hide Matches, After, UpdateOk, Inserts, RowOk, Apply, UpdateRun;
    ApplyRuns(db, call);
    if WithInsert(db, call).Some? {
      UpdateRunRows(WithInsert(db, call).value, call);
    }
  }

  /** A key that had no row has the inserted row, updated once at most. */
  lemma RowInserted(db: Db, call: Call, k: RunKey)
    requires k !in db.runs && k in Apply(db, call).0.runs
    ensures call.k == k && Inserts(db, call).Some? && RowOk(k, Inserts(db, call).value)
    ensures var r, s := Inserts(db, call).value, Apply(db, call).0.runs[k];
            s == r || (s == After(call, r) && UpdateOk(db.runs[k := r], k, r, s)
                       && Matches(db.(runs := db.runs[k := r]), call, r))
  {
    hide Matches, After, UpdateOk, Inserts, RowOk, Apply, UpdateRun;
    ApplyRuns(db, call);
    if WithInsert(db, call).Some? {
      UpdateRunRows(WithInsert(db, call).value, call);
    }
  }

  /** A call without an insert is a guarded update of one run row and what follows it. */
  lemma StatementApplied(db: Db, call: Call)
    requires TouchesRun(call) && !call.ClaimSubmission? && !call.QuarantineQueued?
    ensures Apply(db, call) ==
      if call.k !in db.runs || !Matches(db, call, db.runs[call.k]) then (db, No)
      else
        var r := After(call, db.runs[call.k]);
        if !UpdateOk(db.runs, call.k, db.runs[call.k], r) then (db, Raised)
        else Finish(db.(runs := db.runs[call.k := r]), call)
  {
    hide After, UpdateOk, Matches, Inserts, Charged, Restaged, OnJob, Charges;
    InsertsNothing(db, call);
  }

  lemma InsertsNothing(db: Db, call: Call)
    requires TouchesRun(call) && !call.ClaimSubmission? && !call.QuarantineQueued?
    ensures Inserts(db, call).None?
  {
  }

  ghost predicate RowsOk(db: Db) {
    forall k :: k in db.runs ==> RowOk(k, db.runs[k])
  }

  /** Every reachable row satisfies the row constraints. */
  lemma CallKeepsRows(db: Db, call: Call)
    requires RowsOk(db)
    ensures RowsOk(Apply(db, call).0)
  {
    hide Matches, After, Inserts, RowOk, Apply;
    var d := Apply(db, call).0;
    forall k | k in d.runs ensures RowOk(k, d.runs[k]) {
      if k in db.runs {
        RowAfter(db, call, k);
      } else {
        RowInserted(db, call, k);
      }
    }
  }

  /** Lifecycle of one row across one call: rows never disappear, the external status only moves
      forward, and identity, submission time, acceptance and result are written once. */
  lemma LifecycleForward(db: Db, call: Call, k: RunKey)
    requires k in db.runs
    ensures k in Apply(db, call).0.runs
    ensures var r, s := db.runs[k], Apply(db, call).0.runs[k];
      && s.key == r.key && s.submittedAt == r.submittedAt
      && (s.status == r.status
          || (s.status.Some? && (r.status.None? || r.status == Some(XAccepted)
                                 || (r.status == Some(XRunning) && s.status != Some(XAccepted)))))
      && (r.executor.Some? ==> s.executor == r.executor)
      && (r.ext.Some? ==> s.ext == r.ext)
      && (r.result.Some? ==> s.result == r.result)
  {
    hide Matches, Apply, After, RowOk, Unowned;
    RowAfter(db, call, k);
    AfterKeepsKey(call, db.runs[k]);
  }

  lemma AfterKeepsKey(call: Call, r: Run)
    ensures After(call, r).key == r.key && After(call, r).submittedAt == r.submittedAt
  {
  }

  /** The external identity, status or result of a row changes only in a call on that row that
      presents the token of its current lease. */
  lemma OutcomeNeedsLease(db: Db, call: Call, k: RunKey)
    requires k in db.runs
    ensures k in Apply(db, call).0.runs
    ensures var r, s := db.runs[k], Apply(db, call).0.runs[k];
      (s.ext, s.status, s.result) != (r.ext, r.status, r.result)
      ==> call.k == k && TokenOf(call).Some? && Holds(r, TokenOf(call).value)
  {
    hide Apply, UpdateOk, JobIs, JobActive, SubmissionJob, CanceledDispatch;
    RowAfter(db, call, k);
  }

  /** The lease of a row changes hands only through a claim, and a claim takes only a lease that is
      free, expired at the claim's own clock, or already the claimer's. */
  lemma LeaseTakenByClaim(db: Db, call: Call, k: RunKey, t: string)
    requires k in db.runs && !Holds(db.runs[k], t)
    requires k in Apply(db, call).0.runs && Holds(Apply(db, call).0.runs[k], t)
    ensures call.k == k && LeaseOf(call).Some? && LeaseOf(call).value.token == t
    ensures LeaseFree(db.runs[k], call.now)
  {
    hide Apply, UpdateOk, JobIs, JobActive, SubmissionJob, CanceledDispatch;
    RowAfter(db, call, k);
  }

  /** A call that presents a token the row does not hold changes no table at all. */
  lemma WrongTokenIsRefused(db: Db, call: Call)
    requires call.k in db.runs && TokenOf(call).Some? && !Holds(db.runs[call.k], TokenOf(call).value)
    ensures Apply(db, call) == (db, No)
  {
    hide UpdateOk, JobIs, JobActive, SubmissionJob, CanceledDispatch, RowOk, After;
  }

  /** No two rows of one executor accepted the same run. */
  ghost predicate OneOwner(runs: map<RunKey, Run>) {
    forall j, k ::
      && j in runs && k in runs && j != k && runs[j].executor == runs[k].executor
      && runs[j].ext.Some? && runs[k].ext.Some?
      ==> runs[j].ext.value.runId != runs[k].ext.value.runId
  }

  /** A row that has an acceptance after a call had it before, for the same executor, or is the row of
      the call and took a run that no other row of the executor has. */
  lemma AcceptedBefore(db: Db, call: Call, k: RunKey)
    requires RowsOk(db) && k in Apply(db, call).0.runs && Apply(db, call).0.runs[k].ext.Some?
    ensures var s := Apply(db, call).0.runs[k];
      && k in db.runs
      && (|| (db.runs[k].ext == s.ext && db.runs[k].executor == s.executor)
          || (k == call.k && Unowned(db.runs, k, s.executor, s.ext.value.runId)))
  {
    hide Apply, Matches, Unowned, KeyText;
    if k in db.runs {
      RowAfter(db, call, k);
      assert RowOk(k, db.runs[k]);
    } else {
      RowInserted(db, call, k);
    }
  }

  lemma CallKeepsOwners(db: Db, call: Call)
    requires RowsOk(db) && OneOwner(db.runs)
    ensures OneOwner(Apply(db, call).0.runs)
  {
    hide Apply, RowsOk;
    var runs := Apply(db, call).0.runs;
    forall j, k |
      && j in runs && k in runs && j != k && runs[j].executor == runs[k].executor
      && runs[j].ext.Some? && runs[k].ext.Some?
      ensures runs[j].ext.value.runId != runs[k].ext.value.runId
    {
      AcceptedBefore(db, call, j);
      AcceptedBefore(db, call, k);
    }
  }

  // ---- Any sequence of calls ----------------------------------------------------------------------------------------

  ghost function ApplyAll(db: Db, calls: seq<Call>): Db
    decreases |calls|
  {
    if calls == [] then db else Apply(ApplyAll(db, calls[..|calls| - 1]), calls[|calls| - 1]).0
  }

  /** Once a row is leased under another token, the previous holder is shut out for good: as long as
      nobody claims with the old token again, the row never carries it again, and every call that
      presents it is refused and changes nothing, whatever else happens in between. */
  lemma {:induction false} FencedForever(db: Db, calls: seq<Call>, k: RunKey, t: string)
    requires k in db.runs && !Holds(db.runs[k], t)
    requires forall i :: 0 <= i < |calls| && LeaseOf(calls[i]).Some? ==> LeaseOf(calls[i]).value.token != t
    ensures k in ApplyAll(db, calls).runs && !Holds(ApplyAll(db, calls).runs[k], t)
    ensures forall call: Call :: call.k == k && TokenOf(call) == Some(t) ==>
      Apply(ApplyAll(db, calls), call) == (ApplyAll(db, calls), No)
    decreases |calls|
  {
    hide Apply, TokenOf, LeaseOf;
    if calls != [] {
      var n := |calls| - 1;
      FencedForever(db, calls[..n], k, t);
      var d := ApplyAll(db, calls[..n]);
      RowAfter(d, calls[n], k);
      if Holds(Apply(d, calls[n]).0.runs[k], t) {
        LeaseTakenByClaim(d, calls[n], k, t);
        assert false;
      }
    }
    forall call: Call | call.k == k && TokenOf(call) == Some(t)
      ensures Apply(ApplyAll(db, calls), call) == (ApplyAll(db, calls), No)
    {
      WrongTokenIsRefused(ApplyAll(db, calls), call);
    }
  }

  /** In every run of calls from rows in order: keys are those of their attempts, executor and submission
      come together, an acceptance lies between submission and observation, and belongs to one row. */
  lemma {:induction false} RowsConstrained(db: Db, calls: seq<Call>, k: RunKey)
    requires RowsOk(db) && OneOwner(db.runs) && k in ApplyAll(db, calls).runs
    ensures var runs := ApplyAll(db, calls).runs;
      var r := runs[k];
      && r.key == KeyText(k) && k.attempt > 0 && (r.submittedAt.Some? <==> r.executor.Some?)
      && (r.ext.Some? ==>
            && r.submittedAt.Some? && r.submittedAt.value <= r.ext.value.acceptedAt <= r.ext.value.observedAt
            && forall j ::
                 && j in runs && runs[j].ext.Some? && runs[j].executor == r.executor
                 && runs[j].ext.value.runId == r.ext.value.runId
                 ==> j == k)
  {
    hide Apply, KeyText;
    OwnersKept(db, calls);
    assert RowOk(k, ApplyAll(db, calls).runs[k]);
  }

  lemma {:induction false} OwnersKept(db: Db, calls: seq<Call>)
    requires RowsOk(db) && OneOwner(db.runs)
    ensures RowsOk(ApplyAll(db, calls)) && OneOwner(ApplyAll(db, calls).runs)
    decreases |calls|
  {
    hide Apply, RowsOk, OneOwner;
    if calls != [] {
      OwnersKept(db, calls[..|calls| - 1]);
      CallKeepsRows(ApplyAll(db, calls[..|calls| - 1]), calls[|calls| - 1]);
      CallKeepsOwners(ApplyAll(db, calls[..|calls| - 1]), calls[|calls| - 1]);
    }
  }
}
