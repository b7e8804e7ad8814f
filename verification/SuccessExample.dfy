/**
 A run from empty tables that comes to a success: the premise of the theorems about the success path
 is met, and the path runs through.
 */
module SuccessExample {
  import opened Texts
  import opened JsonValue
  import opened CanonicalJson
  import opened RunnerTables
  import opened RunnerFencing
  import opened RunnerProtocol
  import opened ExecutionResults
  import opened SuccessPath
  import Stall = RunnerStall

  const RESULT := ExecutionResult("text", [], [], Str(""), Str(""), [], [], Str(""), Str(""), Str(""))

  /** A host that accepts every result. */
  function AnyHost(): Host {
    Host(Rules((r: ExecutionResult) => true, (v: Json) => true), (r: ExecutionResult) => true, (text: string) => "hash")
  }

  /** The poll that the run has come to, about to record the result. */
  ghost function PolledStart(): Start {
    Start(RunAll(START, Stall.STALL[..7]), map[], Stall.FIRST, "t2", Stall.POLLED, None, "render", 5, RESULT,
          Payload(Print(ResultMapping(RESULT)), "hash"), "bundle")
  }

  lemma RecordsOpen(db: Db, s: Start)
    requires s.k in db.runs && Holds(db.runs[s.k], s.token) && Open(db.runs[s.k]) && db.runs[s.k].result.None?
    requires RowOk(s.k, db.runs[s.k])
    ensures Apply(db, RecordCall(s)).1.Yes?
  {
    StatementApplied(db, RecordCall(s));
    hide KeyText, Unowned, Apply;
  }

  lemma SuccessReached()
    ensures Ready(AnyHost(), PolledStart())
    ensures Bound(Straight(AnyHost(), PolledStart(), 6), Stall.FIRST)
  {
    hide Apply, RunAll, Ready, ResultMapping, KeyText, Straight, DoAll, Bound;
    var s := PolledStart();
    Stall.PollClaimed();
    assert Stall.After(7) == s.w;
    RecordsOpen(s.w.db, s);
    ReadyInRuns(AnyHost(), Stall.STALL[..7], s);
    CrashesDoNotMatter(AnyHost(), s, [], 6);
  }
}
