/**
  A connection to a stream process as three fields under one lock.  Each method body is
  one critical section of that lock.
 */
module StreamConnection {
  import opened Options

  type RawConnection = nat

  /** `raw` is the pipe; `notified` is set once the closed callback is due. */
  datatype Link = Link(raw: Option<RawConnection>, closing: bool, notified: bool)
  {
    predicate IsOpen() {
      raw.Some? && !closing
    }

    /** What `open` does with a pipe it has connected. */
    function Attached(pipe: RawConnection): Link {
      if closing then this else this.(raw := Some(pipe))
    }

    function Closed(): Link {
      this.(raw := None, closing := true)
    }

    function Notified(): Link {
      if notified then this else this.(raw := None, notified := true)
    }
  }

  class StreamConnection {
    var connection: Option<RawConnection>
    var closing: bool
    var closedNotified: bool

    function View(): Link
      reads this
    {
      Link(connection, closing, closedNotified)
    }

    constructor ()
      ensures View() == Link(None, false, false)
    {
      connection, closing, closedNotified := None, false, false;
    }

    /** The section of `open`; false when the pipe must be closed again. */
    method Attach(pipe: RawConnection) returns (ok: bool)
      modifies this
      ensures View() == old(View()).Attached(pipe)
      ensures ok <==> !old(closing)
      ensures connection == (if ok then Some(pipe) else old(connection))
      ensures closing == old(closing) && closedNotified == old(closedNotified)
    {
      ok := !closing;
      if ok {
        connection := Some(pipe);
      }
    }

    /** Returns the pipe to close, if there is one. */
    method Close() returns (pipe: Option<RawConnection>)
      modifies this
      ensures View() == old(View()).Closed() && pipe == old(connection)
      ensures connection.None? && closing && closedNotified == old(closedNotified)
    {
      closing := true;
      pipe := connection;
      connection := None;
    }

    /** The pipe a message goes to; None when `send` raises. */
    method Target() returns (pipe: Option<RawConnection>)
      ensures pipe.Some? <==> View().IsOpen()
      ensures pipe == if connection.Some? && !closing then connection else None
    {
      pipe := if connection.None? || closing then None else connection;
    }

    /** True when the caller is the one to call the closed callback. */
    method NotifyClosed() returns (first: bool)
      modifies this
      ensures View() == old(View()).Notified() && first == !old(closedNotified)
      ensures first ==> !View().IsOpen() && connection.None?
      ensures closedNotified && closing == old(closing) && (!first ==> connection == old(connection))
    {
      first := !closedNotified;
      if first {
        closedNotified := true;
        connection := None;
      }
    }
  }
}
