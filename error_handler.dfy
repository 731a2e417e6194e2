/*
 * The global error handler the API client calls on every failed request: it
 * picks a message (server message, then transport message, then a fixed
 * fallback) and pushes it into the mounted ErrorProvider, if there is one.
 */
module ErrorHandler {
  import opened Js
  import opened ErrorContext

  const FallbackMessage: string := "Something went wrong. Please try again."

  /** `error.response?.data?.message` */
  function ServerMessage(error: Value): Value {
    Field(Field(Field(error, "response"), "data"), "message")
  }

  /** `error.message` */
  function TransportMessage(error: Value): Value {
    Field(error, "message")
  }

  /** The message the handler reports. The server's message wins over the
      transport message, and either is used only when truthy; otherwise the
      fixed fallback text is used, so the result is never empty. */
  function Message(error: Value): (m: Value)
    ensures Truthy(m)
    ensures Truthy(ServerMessage(error)) ==> m == ServerMessage(error)
    ensures !Truthy(ServerMessage(error)) && Truthy(TransportMessage(error)) ==>
              m == TransportMessage(error)
    ensures !Truthy(ServerMessage(error)) && !Truthy(TransportMessage(error)) ==>
              m == Str(FallbackMessage)
  {
    Or(Or(ServerMessage(error), TransportMessage(error)), Str(FallbackMessage))
  }

  /** A string message is never the empty string: empty messages fall through
      to the next candidate. */
  lemma MessageNeverEmpty(error: Value)
    ensures Message(error).Str? ==> Message(error).s != ""
    ensures Message(error) != Str("")
  {
  }

  /** `errorHandler(error)`: with a provider mounted, its `setError` runs
      exactly once with the chosen message; with the slot still null,
      nothing changes. */
  method HandleError(slot: ErrorSlot, error: Value)
    modifies slot.current
    ensures slot.current == old(slot.current)
    ensures slot.current != null ==>
              slot.current.error == Message(error) &&
              slot.current.setErrorCalls == old(slot.current.setErrorCalls) + 1
  {
    var message := Message(error);
    if slot.current != null {
      slot.current.SetError(message);
    }
  }
}
