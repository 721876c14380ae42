/**
 The status store: one JSON file per job under STATUS_DIR, named after the job
 id, always overwritten whole (server.py `write_status`, `read_status`).

 The directory is a map from file path to the record the file holds. A write is
 a map update at the record's path; the ghost write log and `Replay` let the
 lemmas speak of "the record most recently written".
 */
module StatusStore {
  import opened Json

  const StatusDir: string := "/tmp/upload_statuses"

  /** The contents of STATUS_DIR: record file path to the dict it holds. */
  type Store = map<string, Record>

  predicate IsAbsolute(path: string)
  {
    |path| > 0 && path[0] == '/'
  }

  /** `os.path.join(dir, name)`: an absolute `name` discards `dir`. */
  function JoinPath(dir: string, name: string): string
  {
    if IsAbsolute(name) then name
    else if dir == [] || dir[|dir| - 1] == '/' then dir + name
    else dir + "/" + name
  }

  /**
   The record file of a job: `os.path.join(STATUS_DIR, f"{file_id}.json")`.
   A relative id names an entry under STATUS_DIR; an absolute one discards it.
   */
  function RecordPath(fileId: string): (p: string)
    ensures !IsAbsolute(fileId) ==> p == StatusDir + "/" + fileId + ".json"
    ensures IsAbsolute(fileId) ==> p == fileId + ".json"
  {
    assert !IsAbsolute(fileId) ==> !IsAbsolute(fileId + ".json") by {
      if fileId == [] { assert (fileId + ".json")[0] == '.'; }
    }
    JoinPath(StatusDir, fileId + ".json")
  }

  /**
   An id without `/` is one plain name: its record file is the single
   directory entry `<id>.json` of STATUS_DIR, which is never `.` or `..`, so
   the path needs no normalisation to name the file.
   */
  predicate IsPlainName(fileId: string)
  {
    '/' !in fileId
  }

  /** The record file of a plain id is one entry of STATUS_DIR, named `<id>.json`. */
  lemma PlainRecordPathIsEntry(fileId: string)
    requires IsPlainName(fileId)
    ensures var name := fileId + ".json";
            && RecordPath(fileId) == StatusDir + "/" + name
            && '/' !in name && name != "." && name != ".."
  {
  }

  /**
   Distinct plain ids have distinct record files, so their records never clash.
   Being plain names, the two paths are distinct as files too, not only as strings.
   */
  lemma RecordPathInjective(a: string, b: string)
    requires IsPlainName(a) && IsPlainName(b)
    requires RecordPath(a) == RecordPath(b)
    ensures a == b
  {
    PlainRecordPathIsEntry(a);
    PlainRecordPathIsEntry(b);
    var pa, pb := StatusDir + "/" + a + ".json", StatusDir + "/" + b + ".json";
    assert |a| == |b| by { assert |pa| == |pb|; }
    var k := |StatusDir| + 1;
    assert pa[k..k + |a|] == a;
    assert pb[k..k + |b|] == b;
  }

  /** An absolute id escapes STATUS_DIR and can name another id's record file. */
  lemma AbsoluteIdAliases()
    ensures RecordPath(StatusDir + "/x") == RecordPath("x")
    ensures StatusDir + "/x" != "x"
  {
  }

  /** `read_status`: None when the job has no record file, otherwise the stored dict. */
  function ReadStatus(store: Store, fileId: string): (r: Option<Record>)
    ensures r == None <==> RecordPath(fileId) !in store
    ensures r.Some? ==> r.value == store[RecordPath(fileId)]
  {
    var path := RecordPath(fileId);
    if path in store then Some(store[path]) else None
  }

  /** One call of `write_status`: the whole file at `path` becomes `record`. */
  datatype Write = Write(path: string, record: Record)

  /** The store after applying the writes of `log` in order to `store`. */
  function Replay(store: Store, log: seq<Write>): Store
    decreases |log|
  {
    if log == [] then store
    else
      var w := log[|log| - 1];
      Replay(store, log[..|log| - 1])[w.path := w.record]
  }

  /** The records written to `path`, oldest first. */
  function HistoryOf(log: seq<Write>, path: string): seq<Record>
    decreases |log|
  {
    if log == [] then []
    else
      var w := log[|log| - 1];
      HistoryOf(log[..|log| - 1], path) + (if w.path == path then [w.record] else [])
  }

  /** Appending writes: the history of the whole is the histories of the parts. */
  lemma {:induction false} HistoryOfConcat(a: seq<Write>, b: seq<Write>, path: string)
    ensures HistoryOf(a + b, path) == HistoryOf(a, path) + HistoryOf(b, path)
    decreases |b|
  {
    if b == [] {
      assert a + b == a;
    } else {
      var w := b[|b| - 1];
      assert (a + b)[..|a + b| - 1] == a + b[..|b| - 1];
      assert (a + b)[|a + b| - 1] == w;
      HistoryOfConcat(a, b[..|b| - 1], path);
    }
  }

  /**
   After any sequence of whole-file overwrites, reading `fileId` yields the
   record most recently written for it, or what was there before if nothing was.
   */
  lemma {:induction false} ReadIsLastWrite(store: Store, log: seq<Write>, fileId: string)
    ensures var h := HistoryOf(log, RecordPath(fileId));
            ReadStatus(Replay(store, log), fileId)
              == if h == [] then ReadStatus(store, fileId) else Some(h[|h| - 1])
    decreases |log|
  {
    if log != [] {
      ReadIsLastWrite(store, log[..|log| - 1], fileId);
    }
  }

  /** A write replaces the record of its id and leaves every other record file alone. */
  lemma WriteReplacesOnlyItsRecord(store: Store, fileId: string, rec: Record, other: string)
    ensures ReadStatus(store[RecordPath(fileId) := rec], fileId) == Some(rec)
    ensures RecordPath(other) != RecordPath(fileId) ==>
              ReadStatus(store[RecordPath(fileId) := rec], other) == ReadStatus(store, other)
  {
  }
}
