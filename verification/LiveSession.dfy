/** `session.Session`: one client's upstream socket and its activity.  Each method
    is proved against the section of `SessionState` that the lifecycle interleaves. */
module LiveSession {
  import opened Basics
  import S = SessionState

  datatype Outcome = Forwarded | SessionClosed | WriteFailed

  class Session {
    const key: Key
    var closed: bool
    var lastActivity: Time
    var cancelled: bool         // the context's cancel function was called
    var socketCloses: nat       // calls of upstream.Close
    var closeOnce: bool         // closeOnce has run
    var done: bool              // the reader has closed the done channel
    ghost var accepted: seq<Datagram>
    var written: seq<Datagram>  // what the upstream socket was given

    /** The socket is closed exactly once, by whoever marks the session closed. */
    predicate Valid()
      reads this
    {
      && closeOnce == closed == cancelled
      && socketCloses == (if closed then 1 else 0)
      && (done ==> closed)
    }

    ghost function Abs(): S.State
      reads this
    {
      S.State(key, closed, done, lastActivity, accepted, written)
    }

    constructor (key: Key, now: Time)
      ensures Valid() && Abs() == S.New(key, now)
    {
      this.key := key;
      closed, cancelled, done, closeOnce, socketCloses := false, false, false, false, 0;
      lastActivity := now;
      accepted, written := [], [];
    }

    method Touch(now: Time) returns (ok: bool)
      requires Valid()
      modifies this
      ensures Valid() && ok == !old(closed) && Abs() == S.Touch(old(Abs()), now)
    {
      if closed { return false; }
      lastActivity := now;
      ok := true;
    }

    /** Expires the session exactly if it is open and idle since before `cutoff`. */
    method TryExpire(cutoff: Time) returns (expired: bool)
      requires Valid()
      modifies this
      ensures Valid() && expired == (!old(closed) && old(lastActivity) < cutoff)
      ensures Abs() == if expired then S.Close(old(Abs())) else old(Abs())
    {
      if closed || cutoff <= lastActivity { return false; }
      closed := true;
      if !closeOnce { closeOnce := true; CloseSocket(); }
      expired := true;
    }

    method CloseSocket()
      modifies this`cancelled, this`socketCloses
      ensures cancelled && socketCloses == old(socketCloses) + 1
    {
      cancelled := true;
      socketCloses := socketCloses + 1;
    }

    method CloseResources()
      requires Valid()
      modifies this
      ensures Valid() && Abs() == S.Close(old(Abs()))
    {
      if !closeOnce {
        closeOnce := true;
        closed := true;
        CloseSocket();
      }
    }

    /** `ForwardClient`; `now` and `sent` are the clock and the success of the write. */
    method ForwardClient(g: Datagram, now: Time, sent: bool) returns (r: Outcome)
      requires Valid()
      modifies this
      ensures Valid()
      ensures r == if old(closed) then SessionClosed else if sent then Forwarded else WriteFailed
      ensures Abs() ==
        match r
        case Forwarded => S.Write(S.Touch(old(Abs()), now), g)
        case SessionClosed => old(Abs())
        case WriteFailed => S.Close(S.Touch(old(Abs()), now))
    {
      var ok := Touch(now);
      if !ok { return SessionClosed; }
      if !sent {
        if closed { return SessionClosed; }
        CloseResources();
        return WriteFailed;
      }
      written := written + [g];
      r := Forwarded;
    }

    /** `Close`: the closed socket ends the reader and the cancelled context the
        watcher, so that both have returned when it does. */
    method Close()
      requires Valid()
      modifies this
      ensures Valid() && Abs() == S.Close(old(Abs())).(done := true)
    {
      CloseResources();
      done := true;
    }
  }
}
