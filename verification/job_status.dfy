/**
 The status of an upload job, the JSON record each status is written as
 (server.py, the dicts passed to `write_status`), and the state machine
 pending -> processing -> completed | failed that the records go through.
 */
module JobStatus {
  import opened Json

  /** The message every failed job records, whatever the exception was. */
  const UploadFailedMessage: string := "Upload process failed."

  datatype Status =
    | Pending
    | Processing
    | Completed(result: Json)
    | Failed(error: string)
  {
    predicate IsTerminal() { Completed? || Failed? }
  }

  /** The dict written for each status: `{"status": ...}` plus `result` or `error`. */
  function EncodeStatus(st: Status): (r: Record)
    ensures "status" in r && r["status"].JStr?
    ensures r != map[]
    ensures st.Completed? <==> "result" in r
    ensures st.Failed? <==> "error" in r
  {
    match st
    case Pending => map["status" := JStr("pending")]
    case Processing => map["status" := JStr("processing")]
    case Completed(res) => map["status" := JStr("completed"), "result" := res]
    case Failed(msg) => map["status" := JStr("failed"), "error" := JStr(msg)]
  }

  /** Reads a record back as a status; records of any other shape are rejected. */
  function DecodeStatus(rec: Record): (r: Option<Status>)
    ensures r.Some? ==> EncodeStatus(r.value) == rec
  {
    if "status" !in rec || !rec["status"].JStr? then None
    else
      var tag := rec["status"].s;
      if tag == "pending" && rec.Keys == {"status"} then
        Some(Pending)
      else if tag == "processing" && rec.Keys == {"status"} then
        Some(Processing)
      else if tag == "completed" && rec.Keys == {"status", "result"} then
        Some(Completed(rec["result"]))
      else if tag == "failed" && rec.Keys == {"status", "error"} && rec["error"].JStr? then
        Some(Failed(rec["error"].s))
      else
        None
  }

  /** Every status is read back from the record written for it. */
  lemma DecodeEncode(st: Status)
    ensures DecodeStatus(EncodeStatus(st)) == Some(st)
  {
  }

  /** Distinct statuses are written as distinct records. */
  lemma EncodeInjective(a: Status, b: Status)
    requires EncodeStatus(a) == EncodeStatus(b)
    ensures a == b
  {
  }

  /**
   Reads a sequence of records back as statuses, or None if one of them is
   not the record of any status.
   */
  function DecodeHistory(h: seq<Record>): (r: Option<seq<Status>>)
    ensures r.Some? ==> |r.value| == |h|
    ensures r.Some? ==> forall i :: 0 <= i < |h| ==> EncodeStatus(r.value[i]) == h[i]
    ensures (forall i :: 0 <= i < |h| ==> DecodeStatus(h[i]).Some?) ==> r.Some?
    decreases |h|
  {
    if h == [] then Some([])
    else
      var first, rest := DecodeStatus(h[0]), DecodeHistory(h[1..]);
      if first.Some? && rest.Some? then Some([first.value] + rest.value) else None
  }

  /** The records of a complete lifecycle read back as that lifecycle. */
  lemma DecodeLifecycle(t: Status)
    ensures DecodeHistory([EncodeStatus(Pending), EncodeStatus(Processing), EncodeStatus(t)])
              == Some([Pending, Processing, t])
  {
    var h3 := [EncodeStatus(t)];
    var h2 := [EncodeStatus(Processing)] + h3;
    var h1 := [EncodeStatus(Pending)] + h2;
    DecodeEncode(Pending);
    DecodeEncode(Processing);
    DecodeEncode(t);
    assert h3[1..] == [];
    assert [t] + [] == [t];
    assert DecodeHistory(h3) == Some([t]);
    assert h2[1..] == h3;
    assert [Processing] + [t] == [Processing, t];
    assert DecodeHistory(h2) == Some([Processing, t]);
    assert h1[1..] == h2;
    assert [Pending] + [Processing, t] == [Pending, Processing, t];
  }

  /** Position of a status in the lifecycle. */
  function Stage(st: Status): (n: nat)
    ensures n <= 2
    ensures n == 2 <==> st.IsTerminal()
  {
    match st
    case Pending => 0
    case Processing => 1
    case Completed(_) => 2
    case Failed(_) => 2
  }

  /** The only moves: pending to processing, processing to a terminal status. */
  predicate ValidTransition(from: Status, to: Status)
  {
    (from == Pending && to == Processing) || (from == Processing && to.IsTerminal())
  }

  /** A history that starts at pending and moves only by valid transitions. */
  predicate ForwardOnly(h: seq<Status>)
  {
    && |h| > 0
    && h[0] == Pending
    && forall i :: 0 <= i < |h| - 1 ==> ValidTransition(h[i], h[i + 1])
  }

  /** In a forward-only history every step advances the stage by exactly one. */
  lemma {:induction false} ForwardOnlyStageAt(h: seq<Status>, i: nat)
    requires ForwardOnly(h)
    requires i < |h|
    ensures Stage(h[i]) == i
  {
    if i > 0 {
      ForwardOnlyStageAt(h, i - 1);
      assert ValidTransition(h[i - 1], h[i]);
    }
  }

  /**
   A forward-only history is at most pending, processing, terminal: no status
   is skipped, none is revisited, and nothing follows a terminal status.
   */
  lemma ForwardOnlyNoSkipNoRevisit(h: seq<Status>)
    requires ForwardOnly(h)
    ensures |h| <= 3
    ensures forall i :: 0 <= i < |h| ==> Stage(h[i]) == i
    ensures forall i :: 0 <= i < |h| && h[i].IsTerminal() ==> i == |h| - 1
  {
    forall i | 0 <= i < |h|
      ensures Stage(h[i]) == i
    {
      ForwardOnlyStageAt(h, i);
    }
    ForwardOnlyStageAt(h, |h| - 1);
  }

  /** The complete lifecycle of one job is forward-only and ends terminal. */
  lemma LifecycleIsForwardOnly(t: Status)
    requires t.IsTerminal()
    ensures ForwardOnly([Pending, Processing, t])
    ensures forall u :: !ValidTransition(t, u)
  {
  }
}
