/** The client-side state of one transfer: the handle id the client gave it
    and the callback to run when it completes. */
module TransferContext {
  import opened Base
  import Transfer

  /** A completion callback, by identity; NoCallback is the null function. */
  datatype CompletionFunc = NoCallback | Callback(id: nat)

  class ClientContext {
    var handleId: u32
    var onCompletion: CompletionFunc

    /** A fresh context has handle id 0, the client's unassigned handle id,
        and no callback. */
    constructor ()
      ensures handleId == 0 && handleId == Transfer.UnassignedHandleId
      ensures Transfer.TransferHandle(handleId).IsUnassigned()
      ensures onCompletion == NoCallback
    {
      handleId := 0;
      onCompletion := NoCallback;
    }

    function HandleId(): (id: u32)
      reads this
      ensures id == handleId
    {
      handleId
    }

    /** set_handle_id replaces the id; the callback is untouched. */
    method SetHandleId(id: u32)
      modifies this`handleId
      ensures HandleId() == id
      ensures onCompletion == old(onCompletion)
    {
      handleId := id;
    }

    /** set_on_completion replaces the callback; the id is untouched. */
    method SetOnCompletion(callback: CompletionFunc)
      modifies this`onCompletion
      ensures onCompletion == callback
      ensures HandleId() == old(HandleId())
    {
      onCompletion := callback;
    }
  }
}
