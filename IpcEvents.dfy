/**
 * The response envelopes of the IPC layer (packages/shared/src/ipc-events.ts):
 * every handler answers with a success carrying its data, or a failure carrying
 * a message, never both.
 */
module IpcEvents {
  import opened Wrappers

  /** `IpcResponse<T>`. */
  datatype IpcResponse<T> = IpcSuccess(data: T) | IpcFailure(msg: string)

  /** `IpcPaginatedResponse<T>`: a success also carries the total. */
  datatype PaginatedResponse<T> = PageSuccess(data: T, total: int) | PageFailure(msg: string)

  /** The argument of `createErrorIpcResponse`: a string, or an `Error` with its message. */
  datatype ErrorArgument = ErrorString(text: string) | ErrorObject(message: string)

  /** `createIpcResponse(success, data, msg?)`. */
  function CreateIpcResponse<T>(success: bool, data: T, msg: Option<string>): (r: IpcResponse<T>)
    ensures r.IpcSuccess? <==> success
    ensures r.IpcSuccess? ==> r.data == data
    ensures r.IpcFailure? ==> r.msg == msg.GetOr("")
  {
    if success then IpcSuccess(data) else IpcFailure(msg.GetOr(""))
  }

  /** `createIpcPaginatedResponse(success, data, msg?, total?)`. */
  function CreateIpcPaginatedResponse<T>(success: bool, data: T, msg: Option<string>, total: Option<int>): (r: PaginatedResponse<T>)
    ensures r.PageSuccess? <==> success
    ensures r.PageSuccess? ==> r.data == data && r.total == total.GetOr(0)
    ensures r.PageFailure? ==> r.msg == msg.GetOr("")
  {
    if success then PageSuccess(data, total.GetOr(0)) else PageFailure(msg.GetOr(""))
  }

  /** `createErrorIpcResponse(errMsg)`. */
  function CreateErrorIpcResponse<T>(err: ErrorArgument): (r: IpcResponse<T>)
    ensures r.IpcFailure?
    ensures r.msg == (if err.ErrorString? then err.text else err.message)
  {
    IpcFailure(if err.ErrorString? then err.text else err.message)
  }

  /** Forgetting the total of a paginated response gives the plain response. */
  function Unpaged<T>(r: PaginatedResponse<T>): IpcResponse<T> {
    match r
    case PageSuccess(data, _) => IpcSuccess(data)
    case PageFailure(msg) => IpcFailure(msg)
  }

  /**
   * The two constructors agree on everything but the total: a paginated response
   * is the plain one with the total added.
   */
  lemma PaginatedExtendsPlain<T>(success: bool, data: T, msg: Option<string>, total: Option<int>)
    ensures Unpaged(CreateIpcPaginatedResponse(success, data, msg, total)) == CreateIpcResponse(success, data, msg)
  {
  }

  /**
   * A failure with a given message is the same envelope whichever constructor
   * builds it; without a message it is the empty message.
   */
  lemma ErrorResponseIsFailure<T>(data: T, message: string)
    ensures CreateErrorIpcResponse<T>(ErrorString(message)) == CreateIpcResponse(false, data, Some(message))
    ensures CreateErrorIpcResponse<T>(ErrorObject(message)) == CreateIpcResponse(false, data, Some(message))
    ensures CreateIpcResponse(false, data, None) == CreateIpcResponse(false, data, Some(""))
  {
  }

  /** A failure never carries the data it was given, and a success never carries a message. */
  lemma FailureDropsData<T>(data: T, other: T, msg: Option<string>)
    ensures CreateIpcResponse(false, data, msg) == CreateIpcResponse(false, other, msg)
    ensures CreateIpcResponse(true, data, msg) == CreateIpcResponse(true, data, None)
  {
  }
}
