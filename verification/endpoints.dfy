/**
 The two endpoints with logic of their own: the status query of an upload job
 (server.py `get_upload_status`) and the choice of remote delete call
 (server.py `delete_item`). Both are functions: neither changes local state.
 */
module Endpoints {
  import opened Json
  import opened JobStatus
  import opened StatusStore
  import opened Remote

  const NotFoundBody: Json := JObj(map["error" := JStr("File not found")])

  const InvalidItemTypeBody: Json :=
    JObj(map["error" := JStr("Invalid item_type. Must be 'file' or 'folder'.")])

  /**
   `get_upload_status`: 404 when there is no record or the record is an empty
   dict, otherwise 200 with the stored record exactly as read.
   */
  function GetUploadStatus(store: Store, fileId: string): (r: Response)
    ensures r.code == 404 <==> Falsy(ReadStatus(store, fileId))
    ensures r.code == 404 ==> r.body == NotFoundBody
    ensures r.code != 404 ==> r == Response(200, JObj(store[RecordPath(fileId)]))
  {
    var status := ReadStatus(store, fileId);
    if Falsy(status) then Response(404, NotFoundBody)
    else Response(200, JObj(status.value))
  }

  /**
   Whatever status the service last wrote for a job, a poll reports it with 200
   and the body reads back as that very status.
   */
  lemma PollReportsWrittenStatus(store: Store, fileId: string, st: Status)
    ensures var r := GetUploadStatus(store[RecordPath(fileId) := EncodeStatus(st)], fileId);
            && r.code == 200
            && r.body.JObj?
            && DecodeStatus(r.body.fields) == Some(st)
  {
    DecodeEncode(st);
  }

  /** The remote calls a delete request makes and the response it gets. */
  datatype DeleteExchange = DeleteExchange(calls: seq<RemoteCall>, response: Response)

  /**
   `delete_item`: "file" calls only the file delete, "folder" only the folder
   delete, and any other type is refused with 400 before any remote call.
   `reply` is what the remote call returns or raises, when one is made.
   */
  function DeleteItem(itemId: string, reply: RemoteOutcome, itemType: string := "file"): (r: DeleteExchange)
    ensures r.calls == [DeleteFileCall(itemId)] <==> itemType == "file"
    ensures r.calls == [DeleteFolderCall(itemId)] <==> itemType == "folder"
    ensures r.calls == [] <==> itemType != "file" && itemType != "folder"
    ensures r.response.code == 400 <==> r.calls == []
    ensures r.calls == [] ==> r.response.body == InvalidItemTypeBody
    ensures r.calls != [] ==> r.response == PassThrough(reply)
  {
    if itemType == "file" then
      DeleteExchange([DeleteFileCall(itemId)], PassThrough(reply))
    else if itemType == "folder" then
      DeleteExchange([DeleteFolderCall(itemId)], PassThrough(reply))
    else
      DeleteExchange([], Response(400, InvalidItemTypeBody))
  }

  /** Without an explicit type a delete request deletes a file. */
  lemma DeleteItemDefaultsToFile(itemId: string, reply: RemoteOutcome)
    ensures DeleteItem(itemId, reply).calls == [DeleteFileCall(itemId)]
  {
  }
}
