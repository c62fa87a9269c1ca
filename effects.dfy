/** The observable side effects of the core: calls of opaque listener
    callbacks and the browser alert raised by an invalid project name. */
module Effects {

  /** A listener callback, known only by its identity. */
  type ListenerId = nat

  datatype Event =
    | Notified(listener: ListenerId)   // the callback `listener` was called
    | Alerted(message: string)         // alert(message) was shown

  /** The record of every callback call and alert, in the order they happen. */
  class Trace {
    var events: seq<Event>

    constructor ()
      ensures events == []
    {
      events := [];
    }

    /** Calls the callback `f`. */
    method Invoke(f: ListenerId)
      modifies this
      ensures events == old(events) + [Notified(f)]
    {
      events := events + [Notified(f)];
    }

    /** Shows a blocking alert. */
    method Alert(message: string)
      modifies this
      ensures events == old(events) + [Alerted(message)]
    {
      events := events + [Alerted(message)];
    }
  }
}
