/**
 The asynchronous upload job (server.py `upload_file` and
 `upload_to_seedr_in_background`): the dispatcher stages the upload under
 /tmp, records `pending` and answers 202; the background worker then records
 `processing`, makes one remote upload attempt, records the terminal status and
 removes the staged file on every path.

 `Server` holds the local state both touch: the status store, the set of
 staged files under /tmp, and the remote calls made so far. The ghost write
 log remembers every `write_status` call in order.
 */
module UploadJobs {
  import opened Json
  import opened JobStatus
  import opened StatusStore
  import opened Remote

  predicate IsHexDigit(c: char)
  {
    '0' <= c <= '9' || 'a' <= c <= 'f'
  }

  /** The text of `str(uuid.uuid4())`: 8-4-4-4-12 lower-case hex digits, version 4. */
  predicate IsUuid(s: string)
  {
    && |s| == 36
    && (forall i :: 0 <= i < |s| ==>
          if i == 8 || i == 13 || i == 18 || i == 23 then s[i] == '-' else IsHexDigit(s[i]))
    && s[14] == '4'
    && s[19] in "89ab"
  }

  /**
   The staged copy of an upload: `f"/tmp/{file_id}-{file.filename}"`, so the
   path is `/tmp/`, the id, a hyphen and the client's filename, in that order.
   */
  function TempPath(fileId: string, filename: string): (p: string)
    ensures |p| == 6 + |fileId| + |filename|
    ensures p[..5] == "/tmp/" && p[5..5 + |fileId|] == fileId
    ensures p[5 + |fileId|] == '-' && p[6 + |fileId|..] == filename
  {
    "/tmp/" + fileId + "-" + filename
  }

  /** Ids of equal length (every uuid has 36 characters) give distinct jobs distinct staged files. */
  lemma TempPathInjective(a: string, fa: string, b: string, fb: string)
    requires |a| == |b|
    requires TempPath(a, fa) == TempPath(b, fb)
    ensures a == b && fa == fb
  {
  }

  /** A staged file is never a record file, so the two kinds of files never clash. */
  lemma TempPathOutsideStatusDir(fileId: string, filename: string, other: string)
    requires IsUuid(fileId)
    requires IsPlainName(other)
    ensures TempPath(fileId, filename) != RecordPath(other)
  {
  }

  /** A uuid has no `/`, so its record file is one entry of STATUS_DIR. */
  lemma UuidIsPlainName(fileId: string)
    requires IsUuid(fileId)
    ensures IsPlainName(fileId)
  {
  }

  /** The terminal status the worker records for the outcome of its one upload attempt. */
  function TerminalStatus(outcome: RemoteOutcome): (st: Status)
    ensures st.IsTerminal()
    ensures st.Completed? <==> outcome.Returned?
    ensures outcome.Returned? ==> st.result == outcome.result
    ensures outcome.Raised? ==> st.error == UploadFailedMessage
  {
    match outcome
    case Returned(result) => Completed(result)
    case Raised(_) => Failed(UploadFailedMessage)
  }

  /** The failure record never depends on what the remote call raised. */
  lemma FailedRecordIsGeneric(e1: string, e2: string)
    ensures EncodeStatus(TerminalStatus(Raised(e1))) == EncodeStatus(TerminalStatus(Raised(e2)))
    ensures EncodeStatus(TerminalStatus(Raised(e1)))["error"] == JStr(UploadFailedMessage)
  {
  }

  /** How far staging the upload got before `upload_file` returned or raised. */
  datatype Staging =
    | Staged      // the bytes were copied to the staged file
    | OpenFailed  // `open(tmp_path, "wb")` raised: no file was created
    | CopyFailed  // the copy raised after the file was created

  /** The background task `upload_file` registers: the worker and its two arguments. */
  datatype UploadTask = UploadTask(fileId: string, tmpPath: string)

  /** The 202 body naming the new job. */
  function AcceptedResponse(fileId: string): (r: Response)
    ensures r.code == 202 && r.body.JObj?
    ensures r.body.fields.Keys == {"file_id"} && r.body.fields["file_id"] == JStr(fileId)
  {
    Response(202, JObj(map["file_id" := JStr(fileId)]))
  }

  /**
   The writes of one job's lifecycle as they land in the write log: `pending`
   from the dispatcher, then `processing` and the terminal status from the
   worker, with other writes before, between, during the upload and after.
   */
  function JobLog(before: seq<Write>, between: seq<Write>, during: seq<Write>, after: seq<Write>,
                  fileId: string, outcome: RemoteOutcome): seq<Write>
  {
    var p := RecordPath(fileId);
    before + [Write(p, EncodeStatus(Pending))] + between + [Write(p, EncodeStatus(Processing))]
      + during + [Write(p, EncodeStatus(TerminalStatus(outcome)))] + after
  }

  /**
   Over its lifecycle, with any writes to other record files interleaved, a job's
   record goes pending, processing, terminal, once each and in that order; the
   history reads back as a forward-only status history, and a read sees the
   terminal record.
   */
  lemma JobHistory(
    store: Store, before: seq<Write>, between: seq<Write>, during: seq<Write>, after: seq<Write>,
    fileId: string, outcome: RemoteOutcome)
    requires ReadStatus(Replay(store, before), fileId) == None
    requires HistoryOf(between, RecordPath(fileId)) == []
    requires HistoryOf(during, RecordPath(fileId)) == []
    requires HistoryOf(after, RecordPath(fileId)) == []
    ensures var p, t := RecordPath(fileId), TerminalStatus(outcome);
            var log := JobLog(before, between, during, after, fileId, outcome);
            && HistoryOf(log, p) == [EncodeStatus(Pending), EncodeStatus(Processing), EncodeStatus(t)]
            && DecodeHistory(HistoryOf(log, p)) == Some([Pending, Processing, t])
            && ForwardOnly(DecodeHistory(HistoryOf(log, p)).value)
            && ReadStatus(Replay(store, log), fileId) == Some(EncodeStatus(t))
  {
    var p, t := RecordPath(fileId), TerminalStatus(outcome);
    ReadIsLastWrite(store, before, fileId);
    JobLogHistory(before, between, during, after, fileId, outcome);
    DecodeLifecycle(t);
    LifecycleIsForwardOnly(t);
    ReadIsLastWrite(store, JobLog(before, between, during, after, fileId, outcome), fileId);
  }

  /** The job's own writes are the only ones in its record's history. */
  lemma JobLogHistory(
    before: seq<Write>, between: seq<Write>, during: seq<Write>, after: seq<Write>,
    fileId: string, outcome: RemoteOutcome)
    requires HistoryOf(between, RecordPath(fileId)) == []
    requires HistoryOf(during, RecordPath(fileId)) == []
    requires HistoryOf(after, RecordPath(fileId)) == []
    ensures var p, t := RecordPath(fileId), TerminalStatus(outcome);
            HistoryOf(JobLog(before, between, during, after, fileId, outcome), p)
              == HistoryOf(before, p) + [EncodeStatus(Pending), EncodeStatus(Processing), EncodeStatus(t)]
  {
    var p, t := RecordPath(fileId), TerminalStatus(outcome);
    var pending, processing, terminal :=
      [Write(p, EncodeStatus(Pending))], [Write(p, EncodeStatus(Processing))], [Write(p, EncodeStatus(t))];
    assert pending[..0] == [] && processing[..0] == [] && terminal[..0] == [];
    var s2 := before + pending;
    var s3 := s2 + between;
    var s4 := s3 + processing;
    var s5 := s4 + during;
    var s6 := s5 + terminal;
    assert s6 + after == JobLog(before, between, during, after, fileId, outcome);
    HistoryOfConcat(before, pending, p);
    HistoryOfConcat(s2, between, p);
    HistoryOfConcat(s3, processing, p);
    HistoryOfConcat(s4, during, p);
    HistoryOfConcat(s5, terminal, p);
    HistoryOfConcat(s6, after, p);
  }

  /** The writes of `ws` all go to the records of uuid jobs other than `fileId`. */
  ghost predicate WrittenByOtherJobs(ws: seq<Write>, fileId: string)
  {
    forall i :: 0 <= i < |ws| ==> exists j :: IsUuid(j) && j != fileId && ws[i].path == RecordPath(j)
  }

  /** Writes that belong to other jobs never touch this job's record. */
  lemma {:induction false} OtherJobsLeaveRecordAlone(ws: seq<Write>, fileId: string)
    requires IsUuid(fileId)
    requires WrittenByOtherJobs(ws, fileId)
    ensures HistoryOf(ws, RecordPath(fileId)) == []
    decreases |ws|
  {
    if ws != [] {
      var n := |ws| - 1;
      var j :| IsUuid(j) && j != fileId && ws[n].path == RecordPath(j);
      UuidIsPlainName(fileId);
      UuidIsPlainName(j);
      if RecordPath(j) == RecordPath(fileId) {
        RecordPathInjective(j, fileId);
      }
      OtherJobsLeaveRecordAlone(ws[..n], fileId);
    }
  }

  /**
   The lifecycle of a fresh uuid job, with other uuid jobs' workers writing
   before, between, during its upload and after: its record history is still
   pending, processing, terminal, and a read sees the terminal record.
   */
  lemma JobHistoryAmongOtherJobs(
    store: Store, before: seq<Write>, between: seq<Write>, during: seq<Write>, after: seq<Write>,
    fileId: string, outcome: RemoteOutcome)
    requires IsUuid(fileId)
    requires ReadStatus(Replay(store, before), fileId) == None
    requires WrittenByOtherJobs(between, fileId)
    requires WrittenByOtherJobs(during, fileId)
    requires WrittenByOtherJobs(after, fileId)
    ensures var p, t := RecordPath(fileId), TerminalStatus(outcome);
            var log := JobLog(before, between, during, after, fileId, outcome);
            && DecodeHistory(HistoryOf(log, p)) == Some([Pending, Processing, t])
            && ReadStatus(Replay(store, log), fileId) == Some(EncodeStatus(t))
  {
    OtherJobsLeaveRecordAlone(between, fileId);
    OtherJobsLeaveRecordAlone(during, fileId);
    OtherJobsLeaveRecordAlone(after, fileId);
    JobHistory(store, before, between, during, after, fileId, outcome);
  }

  class Server {
    /** STATUS_DIR: record file path to the dict it holds. */
    var records: Store
    /** The staged upload files present under /tmp. */
    var tempFiles: set<string>
    /** The remote calls made so far, oldest first. */
    var remoteCalls: seq<RemoteCall>

    /** The store before the first modelled write. */
    ghost var initial: Store
    /** Every `write_status` call so far, oldest first. */
    ghost var log: seq<Write>

    ghost predicate Valid()
      reads this
    {
      records == Replay(initial, log)
    }

    constructor (existing: Store, staged: set<string>)
      ensures Valid()
      ensures records == existing && tempFiles == staged && remoteCalls == []
      ensures initial == existing && log == []
    {
      records, tempFiles, remoteCalls := existing, staged, [];
      initial, log := existing, [];
    }

    /** `write_status`: the job's record file is overwritten whole with `statusData`. */
    method WriteStatus(fileId: string, statusData: Record)
      requires Valid()
      modifies this`records, this`log
      ensures Valid()
      ensures records == old(records)[RecordPath(fileId) := statusData]
      ensures log == old(log) + [Write(RecordPath(fileId), statusData)]
    {
      var w := Write(RecordPath(fileId), statusData);
      records := records[w.path := w.record];
      log := log + [w];
      assert log[..|log| - 1] == old(log);
    }

    /**
     `upload_file`: stage the upload under its temp path, register the worker,
     record `pending` and answer 202 with the job id. If staging raises, the
     generic handler answers 500, no record is written and no worker runs; a
     copy that fails after the file was created leaves that file behind.
     */
    method UploadFile(fileId: string, filename: string, staging: Staging)
      returns (resp: Response, task: Option<UploadTask>)
      requires Valid()
      requires IsUuid(fileId)
      requires ReadStatus(records, fileId) == None
      modifies this`records, this`log, this`tempFiles
      ensures Valid()
      ensures var tmp := TempPath(fileId, filename);
              match staging
              case Staged =>
                && tempFiles == old(tempFiles) + {tmp}
                && records == old(records)[RecordPath(fileId) := EncodeStatus(Pending)]
                && log == old(log) + [Write(RecordPath(fileId), EncodeStatus(Pending))]
                && resp == AcceptedResponse(fileId)
                && task == Some(UploadTask(fileId, tmp))
              case OpenFailed =>
                && tempFiles == old(tempFiles)
                && records == old(records) && log == old(log)
                && resp == Response(500, InternalErrorBody) && task == None
              case CopyFailed =>
                && tempFiles == old(tempFiles) + {tmp}
                && records == old(records) && log == old(log)
                && resp == Response(500, InternalErrorBody) && task == None
    {
      var tmpPath := TempPath(fileId, filename);
      if staging == OpenFailed {
        return Response(500, InternalErrorBody), None;
      }
      tempFiles := tempFiles + {tmpPath};
      if staging == CopyFailed {
        return Response(500, InternalErrorBody), None;
      }
      task := Some(UploadTask(fileId, tmpPath));
      WriteStatus(fileId, EncodeStatus(Pending));
      resp := AcceptedResponse(fileId);
    }

    /**
     `upload_to_seedr_in_background`: record `processing`, attempt the upload
     once, record `completed` with the result or `failed` with the fixed
     message, and in every case remove the staged file.
     */
    method UploadToSeedrInBackground(task: UploadTask, outcome: RemoteOutcome)
      requires Valid()
      modifies this`records, this`log, this`tempFiles, this`remoteCalls
      ensures Valid()
      ensures var p := RecordPath(task.fileId);
              && log == old(log) + [Write(p, EncodeStatus(Processing)),
                                    Write(p, EncodeStatus(TerminalStatus(outcome)))]
              && records == old(records)[p := EncodeStatus(TerminalStatus(outcome))]
      ensures remoteCalls == old(remoteCalls) + [UploadCall(task.tmpPath)]
      ensures tempFiles == old(tempFiles) - {task.tmpPath}
    {
      WriteStatus(task.fileId, EncodeStatus(Processing));
      remoteCalls := remoteCalls + [UploadCall(task.tmpPath)];
      match outcome {
        case Returned(result) =>
          WriteStatus(task.fileId, EncodeStatus(Completed(result)));
        case Raised(_) =>
          WriteStatus(task.fileId, EncodeStatus(Failed(UploadFailedMessage)));
      }
      // finally: remove the staged file if it still exists
      if task.tmpPath in tempFiles {
        tempFiles := tempFiles - {task.tmpPath};
      }
    }

    /**
     One upload as the framework runs it: the handler answers 202, then the
     registered task runs. The job's record goes pending, processing, terminal;
     the staged file is gone; other jobs' records and staged files are untouched.
     */
    method ServeUpload(fileId: string, filename: string, outcome: RemoteOutcome)
      returns (resp: Response)
      requires Valid()
      requires IsUuid(fileId)
      requires ReadStatus(records, fileId) == None
      modifies this`records, this`log, this`tempFiles, this`remoteCalls
      ensures Valid()
      ensures resp == AcceptedResponse(fileId)
      ensures var p, t := RecordPath(fileId), TerminalStatus(outcome);
              log == old(log) + [Write(p, EncodeStatus(Pending)), Write(p, EncodeStatus(Processing)),
                                 Write(p, EncodeStatus(t))]
      ensures records == old(records)[RecordPath(fileId) := EncodeStatus(TerminalStatus(outcome))]
      ensures var t, h := TerminalStatus(outcome), HistoryOf(log, RecordPath(fileId));
              && h == [EncodeStatus(Pending), EncodeStatus(Processing), EncodeStatus(t)]
              && DecodeHistory(h) == Some([Pending, Processing, t])
              && ForwardOnly(DecodeHistory(h).value)
              && ReadStatus(records, fileId) == Some(EncodeStatus(t))
      ensures forall other :: other != fileId && IsPlainName(other) ==>
                ReadStatus(records, other) == ReadStatus(old(records), other)
      ensures tempFiles == old(tempFiles) - {TempPath(fileId, filename)}
      ensures remoteCalls == old(remoteCalls) + [UploadCall(TempPath(fileId, filename))]
    {
      ghost var log0 := log;
      var task;
      resp, task := UploadFile(fileId, filename, Staged);
      UploadToSeedrInBackground(task.value, outcome);
      ghost var p, t := RecordPath(fileId), TerminalStatus(outcome);
      assert log == log0 + [Write(p, EncodeStatus(Pending)), Write(p, EncodeStatus(Processing)),
                            Write(p, EncodeStatus(t))];
      JobHistory(initial, log0, [], [], [], fileId, outcome);
      assert log == JobLog(log0, [], [], [], fileId, outcome);
      UuidIsPlainName(fileId);
      forall other | other != fileId && IsPlainName(other)
        ensures ReadStatus(records, other) == ReadStatus(old(records), other)
      {
        if RecordPath(other) == RecordPath(fileId) {
          RecordPathInjective(other, fileId);
        }
      }
    }
  }
}
