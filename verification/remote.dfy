/**
 What the service sees of the remote storage client: which calls it makes and
 whether a call returned a payload or raised. The client's behaviour itself is
 not modelled.
 */
module Remote {
  import opened Json

  /** The outcome of one remote call. */
  datatype RemoteOutcome =
    | Returned(result: Json)
    | Raised(error: string)

  /** The remote calls the modelled endpoints make. */
  datatype RemoteCall =
    | UploadCall(path: string)
    | DeleteFileCall(itemId: string)
    | DeleteFolderCall(itemId: string)

  /**
   The response of an endpoint that passes a remote call's result through:
   200 with the payload, or the generic 500 when the call raised.
   */
  function PassThrough(outcome: RemoteOutcome): (r: Response)
    ensures r.code == 200 <==> outcome.Returned?
    ensures outcome.Returned? ==> r.body == outcome.result
    ensures outcome.Raised? ==> r == Response(500, InternalErrorBody)
  {
    match outcome
    case Returned(result) => Response(200, result)
    case Raised(_) => Response(500, InternalErrorBody)
  }
}
