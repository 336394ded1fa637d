/**
 * What the logger does to the world outside it (a `print`, an `os_log` call, an assertion
 * failure, a call on an injected dependency) is recorded as an event appended to a trace.
 */
module Effects {

  class Trace<E> {
    /** Every effect so far, oldest first. */
    var events: seq<E>

    constructor ()
      ensures events == []
    {
      events := [];
    }

    method Append(es: seq<E>)
      modifies this
      ensures events == old(events) + es
    {
      events := events + es;
    }
  }
}
