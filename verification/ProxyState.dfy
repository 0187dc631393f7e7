/** The state that `Proxy.mu` guards, and what each critical section under that
    lock does to it.  Class `Proxy` implements these sections; the lifecycle
    machine interleaves them. */
module ProxyState {
  import opened Basics

  // ---- The startup buffer --------------------------------------------------

  datatype Queue = Queue(packets: seq<Datagram>, bytes: nat, overflowLogged: bool)

  const EMPTY_QUEUE := Queue([], 0, false)

  /** `queues` and `queuedBytes`. */
  datatype Buffer = Buffer(queues: map<Sid, Queue>, bytes: int)

  const EMPTY_BUFFER := Buffer(map[], 0)

  function QueueOf(b: Buffer, sid: Sid): Queue {
    if sid in b.queues then b.queues[sid] else EMPTY_QUEUE
  }

  /** Whether the three buffer limits leave room for `g`. */
  predicate Accepts(b: Buffer, sid: Sid, g: Datagram, o: Options) {
    && |QueueOf(b, sid).packets| < o.bufferPackets
    && QueueOf(b, sid).bytes + |g.payload| <= o.bufferBytesPerSession
    && b.bytes + |g.payload| <= o.bufferBytesGlobal
  }

  function Enqueue(b: Buffer, sid: Sid, g: Datagram, o: Options): Buffer {
    var q := QueueOf(b, sid);
    if Accepts(b, sid, g, o) then
      Buffer(b.queues[sid := q.(packets := q.packets + [g], bytes := q.bytes + |g.payload|)], b.bytes + |g.payload|)
    else b.(queues := b.queues[sid := q.(overflowLogged := true)])
  }

  function RemoveQueue(b: Buffer, sid: Sid): Buffer {
    if sid !in b.queues then b else Buffer(b.queues - {sid}, b.bytes - b.queues[sid].bytes)
  }

  /** `removeClosedQueues`: the queues of `gone` are dropped one by one. */
  ghost function RemoveQueues(b: Buffer, gone: set<Sid>): Buffer {
    Buffer(b.queues - gone, b.bytes - TotalBytes(Restrict(b.queues, gone)))
  }

  function Restrict(queues: map<Sid, Queue>, keep: set<Sid>): map<Sid, Queue> {
    map sid | sid in queues && sid in keep :: queues[sid]
  }

  ghost function TotalBytes(queues: map<Sid, Queue>): nat {
    if queues == map[] then 0
    else
      var sid :| sid in queues;
      queues[sid].bytes + TotalBytes(queues - {sid})
  }

  function PayloadBytes(packets: seq<Datagram>): nat {
    if packets == [] then 0 else PayloadBytes(packets[..|packets| - 1]) + |packets[|packets| - 1].payload|
  }

  // ---- Auto-stop timers ------------------------------------------------------

  /** A timer that has not fired. */
  datatype Alarm = Alarm(gen: nat, attempt: nat, armedAt: Time, delay: Time)

  /** `stopTimer`, `stopGeneration`, the runtime's unfired timers, and the count
      of `timerWG`. */
  datatype Timers = Timers(
    current: Option<TimerId>, gen: nat, alarms: map<TimerId, Alarm>, next: TimerId, waiting: int)

  const NO_TIMERS := Timers(None, 0, map[], 0, 0)

  /** `stopAutoStopTimerLocked`: a timer that already fired cannot be stopped
      and keeps its place in the wait group. */
  function StopTimer(m: Timers): Timers {
    match m.current
    case None => m
    case Some(id) =>
      m.(current := None,
         alarms := m.alarms - {id},
         waiting := if id in m.alarms then m.waiting - 1 else m.waiting)
  }

  /** `scheduleAutoStopAttemptLocked`. */
  function Arm(m: Timers, gen: nat, attempt: nat, now: Time, delay: Time): Timers {
    m.(current := Some(m.next),
       alarms := m.alarms[m.next := Alarm(gen, attempt, now, delay)],
       next := m.next + 1,
       waiting := m.waiting + 1)
  }

  /** A new stop generation begins and its predecessor's timer is stopped. */
  function NextGeneration(m: Timers): Timers {
    StopTimer(m.(gen := m.gen + 1))
  }

  function Schedule(m: Timers, now: Time, o: Options): Timers {
    Arm(NextGeneration(m), m.gen + 1, 1, now, o.autoStopDelay)
  }

  /** A timer of the runtime fires and its callback becomes runnable. */
  function Fire(m: Timers, id: TimerId): Timers {
    m.(alarms := m.alarms - {id})
  }

  /** 1, 2, 4, ...: the factor by which retries are spaced. */
  function Doubling(n: nat): nat {
    if n == 0 then 1 else 2 * Doubling(n - 1)
  }

  /** The delay that precedes the given attempt. */
  function AttemptDelay(attempt: nat, o: Options): Time {
    if attempt <= 1 then o.autoStopDelay else o.autoStopRetryDelay * Doubling(attempt - 2)
  }

  function Rearm(m: Timers, gen: nat, attempt: nat, now: Time, o: Options): Timers {
    Arm(m, gen, attempt + 1, now, AttemptDelay(attempt + 1, o))
  }

  function Forget(m: Timers, gen: nat): Timers {
    if gen == m.gen then m.(current := None) else m
  }

  // ---- The sections under mu -------------------------------------------------

  datatype State = State(
    ready: bool, readyGen: nat, running: bool,
    startupRunning: bool, startupGen: nat, blockedUntil: Time,
    shuttingDown: bool,
    buffer: Buffer, timers: Timers)

  const INITIAL := State(false, 0, false, false, 0, 0, false, EMPTY_BUFFER, NO_TIMERS)

  /** Adopting a backend that is already running when `Serve` begins. */
  function AdoptRunning(p: State, probing: bool): State {
    p.(running := true,
       ready := !probing,
       readyGen := if probing then p.readyGen else p.readyGen + 1)
  }

  function MarkNotRunning(p: State): State {
    p.(running := false,
       ready := false,
       readyGen := if p.ready then p.readyGen + 1 else p.readyGen)
  }

  /** The end of the opening flush. */
  function OpenGate(p: State): State {
    p.(running := true,
       buffer := EMPTY_BUFFER,
       ready := true,
       readyGen := if p.ready then p.readyGen else p.readyGen + 1)
  }

  /** The monitor's closing section, past its staleness test. */
  function CloseGate(p: State): State {
    p.(ready := false, running := false, readyGen := p.readyGen + 1,
       timers := NextGeneration(p.timers), buffer := EMPTY_BUFFER)
  }

  /** The queues stay; the watchers of their sessions remove them. */
  function Shutdown(p: State): State {
    p.(shuttingDown := true,
       ready := false,
       readyGen := if p.ready then p.readyGen + 1 else p.readyGen,
       running := false, startupRunning := false,
       startupGen := p.startupGen + 1,
       timers := NextGeneration(p.timers))
  }

  predicate CanStart(p: State, now: Time) {
    !p.shuttingDown && !p.ready && !p.startupRunning && p.blockedUntil <= now
  }

  function BeginStartup(p: State): State {
    p.(startupRunning := true, startupGen := p.startupGen + 1)
  }

  function CompleteStartup(p: State, gen: nat): State {
    if p.startupGen != gen then p else p.(startupRunning := false)
  }

  /** Whether `completeStartup` asks for another attempt. */
  predicate WantsRetrigger(p: State, gen: nat, now: Time) {
    p.startupGen == gen && !p.shuttingDown && !p.ready && p.buffer.queues != map[] && p.blockedUntil <= now
  }

  function FailStartup(p: State, gen: nat, permanent: bool, now: Time, cooldown: Time): State {
    if p.startupGen != gen then p.(buffer := EMPTY_BUFFER)
    else
      p.(buffer := EMPTY_BUFFER, startupRunning := false, running := false,
         blockedUntil := if permanent then now + cooldown else p.blockedUntil)
  }

  function ScheduleAutoStop(p: State, now: Time, o: Options): State {
    if p.shuttingDown || !p.ready then p else p.(timers := Schedule(p.timers, now, o))
  }

  /** The section after a failed Stop that is not the last attempt. */
  function RetryStop(p: State, gen: nat, attempt: nat, now: Time, o: Options): State {
    if gen == p.timers.gen && p.ready then p.(timers := Rearm(p.timers, gen, attempt, now, o)) else p
  }
}
