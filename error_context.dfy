/*
 * The global error channel: an ErrorProvider owns the UI-level `error` state,
 * and a single process-wide slot (`errorContextRef`) lets the HTTP layer,
 * which lives outside the component tree, reach that provider's setters once
 * it has mounted.
 */
module ErrorContext {
  import opened Js

  /** The state an ErrorProvider holds. `setErrorCalls` counts the calls of
      its state setter, so that callers can state how often they used it. */
  class ErrorProvider {
    var error: Value
    ghost var setErrorCalls: nat

    /** `useState(null)` */
    constructor ()
      ensures error == Null && setErrorCalls == 0
    {
      error := Null;
      setErrorCalls := 0;
    }

    /** `setError(message)`: the latest message wins. */
    method SetError(message: Value)
      modifies this
      ensures error == message
      ensures setErrorCalls == old(setErrorCalls) + 1
    {
      error := message;
      setErrorCalls := setErrorCalls + 1;
    }

    /** `clearError = () => setError(null)` */
    method ClearError()
      modifies this
      ensures error == Null
      ensures setErrorCalls == old(setErrorCalls) + 1
    {
      SetError(Null);
    }

    /** The mount effect: `errorContextRef.current = { setError, clearError }`.
        The slot then reaches this provider's setters. */
    method Mount(slot: ErrorSlot)
      modifies slot
      ensures slot.current == this
    {
      slot.current := this;
    }
  }

  /** `errorContextRef`: null until a provider mounts. */
  class ErrorSlot {
    var current: ErrorProvider?

    /** `{ current: null }` */
    constructor ()
      ensures current == null
    {
      current := null;
    }
  }
}
