/** Names shared by every part of the model. */
module Basics {
  datatype Option<+T> = None | Some(value: T)

  /** A client's `ip:port`, the key of the session store. */
  type Key = string

  /** The identity of a session: what pointer equality compares in the program. */
  type Sid = nat

  type TimerId = nat

  /** Instants and durations, in any fixed unit; the clock never runs backwards. */
  type Time = nat

  /** A client datagram.  `id` is its arrival number, which only the proofs look at. */
  datatype Datagram = Datagram(id: nat, payload: seq<bv8>)

  /** An answer of `Controller.Status`; `Other` is none of the states it knows. */
  datatype PanelState = Offline | Starting | Running | Stopping | Other

  /** The settings of a proxy; `probing` says that a readiness strategy is configured. */
  datatype Options = Options(
    maxSessions: nat, maxPacketSize: nat, idleTimeout: Time,
    autoStopDelay: Time, autoStopRetryDelay: Time, failureCooldown: Time,
    bufferPackets: nat, bufferBytesPerSession: nat, bufferBytesGlobal: nat,
    probing: bool)
  {
    /** What `New` accepts once it has filled in the defaults. */
    predicate Valid() {
      && 1 <= maxSessions
      && 1 <= maxPacketSize
      && 0 < idleTimeout
      && 0 < autoStopDelay
      && 1 <= bufferPackets
      && maxPacketSize <= bufferBytesPerSession <= bufferBytesGlobal
    }
  }

  const MAX_AUTO_STOP_ATTEMPTS := 3
  const HEALTH_FAILURE_THRESHOLD := 3
}
