/** The state of one UDP session and the sections under its `activityMu`.
    Class `Session` implements them; the lifecycle machine interleaves them. */
module SessionState {
  import opened Basics

  /** `accepted` and `written` record the datagrams the proxy took on for the
      session and those it wrote upstream, each in order. */
  datatype State = State(
    key: Key, closed: bool, done: bool, lastActivity: Time,
    accepted: seq<Datagram>, written: seq<Datagram>)

  function New(key: Key, now: Time): State {
    State(key, false, false, now, [], [])
  }

  /** `touch`; it succeeds exactly when the session is not closed. */
  function Touch(x: State, now: Time): State {
    if x.closed then x else x.(lastActivity := now)
  }

  predicate Expirable(x: State, tick: Time, idle: Time) {
    !x.closed && x.lastActivity + idle < tick
  }

  function Close(x: State): State {
    x.(closed := true)
  }

  function Accept(x: State, d: Datagram): State {
    x.(accepted := x.accepted + [d])
  }

  function Write(x: State, d: Datagram): State {
    x.(written := x.written + [d])
  }
}
