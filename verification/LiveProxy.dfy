/** `proxy.Proxy`: the fields behind `Proxy.mu` and the sections that update them
    in place, each proved against the function of `ProxyState` that the lifecycle
    machine interleaves. */
module LiveProxy {
  import opened Basics
  import opened LiveSession
  import opened SessionStore
  import Budget
  import P = ProxyState
  import S = SessionState

  class PacketQueue {
    var packets: seq<Datagram>
    var bytes: nat
    var overflowLogged: bool

    function Abs(): P.Queue
      reads this
    {
      P.Queue(packets, bytes, overflowLogged)
    }

    constructor ()
      ensures Abs() == P.EMPTY_QUEUE
    {
      packets, bytes, overflowLogged := [], 0, false;
    }

    method Push(g: Datagram)
      modifies this
      ensures Abs() == old(Abs()).(packets := old(packets) + [g], bytes := old(bytes) + |g.payload|)
    {
      packets := packets + [g];
      bytes := bytes + |g.payload|;
    }
  }

  class Proxy {
    const o: Options
    var backendReady: bool
    var readinessGeneration: nat
    var backendRunning: bool
    var startupRunning: bool
    var startupGeneration: nat
    var startupBlockedUntil: Time
    var shuttingDown: bool
    var queues: map<Sid, PacketQueue>
    var queuedBytes: int
    var stopTimer: Option<TimerId>
    var stopGeneration: nat
    // The runtime's unfired timers, and the count of timerWG.
    var alarms: map<TimerId, P.Alarm>
    var nextTimer: TimerId
    var timerCount: int

    /** No two sessions share a queue. */
    ghost predicate Valid()
      reads this
    {
      forall a, b | a in queues && b in queues && a != b :: queues[a] != queues[b]
    }

    ghost function Queues(): map<Sid, P.Queue>
      reads this`queues, queues.Values
    {
      map sid | sid in queues :: queues[sid].Abs()
    }

    /** The datagrams queued for each session. */
    function Pending(): map<Sid, seq<Datagram>>
      reads this`queues, queues.Values
    {
      map sid | sid in queues :: queues[sid].packets
    }

    ghost function Timers(): P.Timers
      reads this`stopTimer, this`stopGeneration, this`alarms, this`nextTimer, this`timerCount
    {
      P.Timers(stopTimer, stopGeneration, alarms, nextTimer, timerCount)
    }

    ghost function Abs(): P.State
      reads this, queues.Values
    {
      P.State(backendReady, readinessGeneration, backendRunning, startupRunning, startupGeneration,
              startupBlockedUntil, shuttingDown, P.Buffer(Queues(), queuedBytes), Timers())
    }

    constructor (o: Options)
      ensures Valid() && this.o == o && Abs() == P.INITIAL
    {
      this.o := o;
      backendReady, backendRunning, startupRunning, shuttingDown := false, false, false, false;
      readinessGeneration, startupGeneration, startupBlockedUntil := 0, 0, 0;
      queues, queuedBytes := map[], 0;
      stopTimer, stopGeneration, alarms, nextTimer, timerCount := None, 0, map[], 0, 0;
    }

    // ---- The startup buffer ------------------------------------------------------------

    method EnqueueLocked(sid: Sid, g: Datagram)
      requires Valid()
      modifies this`queues, this`queuedBytes, queues.Values
      ensures Valid() && P.Buffer(Queues(), queuedBytes) == P.Enqueue(old(P.Buffer(Queues(), queuedBytes)), sid, g, o)
    {
      ghost var b := P.Buffer(Queues(), queuedBytes);
      var queue := QueueFor(sid);
      assert queue.Abs() == P.QueueOf(b, sid);
      if |queue.packets| >= o.bufferPackets || queue.bytes + |g.payload| > o.bufferBytesPerSession
         || queuedBytes + |g.payload| > o.bufferBytesGlobal
      {
        Overflow(queue, sid, g, b);
      } else {
        PushTo(queue, sid, g, b);
      }
    }

    /** The queue of the session, just made if need be, out of the buffer `b` before that. */
    ghost predicate Prepared(queue: PacketQueue, sid: Sid, b: P.Buffer)
      reads this, queues.Values
    {
      && Valid() && sid in queues && queues[sid] == queue && queue.Abs() == P.QueueOf(b, sid)
      && Queues() == b.queues[sid := P.QueueOf(b, sid)] && queuedBytes == b.bytes
    }

    method PushTo(queue: PacketQueue, sid: Sid, g: Datagram, ghost b: P.Buffer)
      requires Prepared(queue, sid, b) && P.Accepts(b, sid, g, o)
      modifies this`queuedBytes, queue
      ensures Valid() && P.Buffer(Queues(), queuedBytes) == P.Enqueue(b, sid, g, o)
    {
      queue.Push(g);
      queuedBytes := queuedBytes + |g.payload|;
      Pushed(b, sid, g, o, Queues());
    }

    method Overflow(queue: PacketQueue, sid: Sid, g: Datagram, ghost b: P.Buffer)
      requires Prepared(queue, sid, b) && !P.Accepts(b, sid, g, o)
      modifies queue
      ensures Valid() && P.Buffer(Queues(), queuedBytes) == P.Enqueue(b, sid, g, o)
    {
      queue.overflowLogged := true;
      Overflowed(b, sid, g, o, Queues());
    }

    method QueueFor(sid: Sid) returns (queue: PacketQueue)
      requires Valid()
      modifies this`queues
      ensures Valid() && queues == old(queues)[sid := queue]
      ensures if sid in old(queues) then queue == old(queues)[sid] else fresh(queue)
      ensures queue.Abs() == P.QueueOf(P.Buffer(old(Queues()), 0), sid)
      ensures Queues() == old(Queues())[sid := queue.Abs()]
    {
      if sid !in queues {
        queue := new PacketQueue();
        queues := queues[sid := queue];
      }
      queue := queues[sid];
    }

    method RemoveQueue(sid: Sid)
      requires Valid()
      modifies this`queues, this`queuedBytes
      ensures Valid() && queues == old(queues) - {sid}
      ensures P.Buffer(Queues(), queuedBytes) == P.RemoveQueue(old(P.Buffer(Queues(), queuedBytes)), sid)
    {
      if sid in queues {
        queuedBytes := queuedBytes - queues[sid].bytes;
        queues := queues - {sid};
      } else { assert queues - {sid} == queues; }
    }

    /** `removeClosedQueues`; `done` holds the sessions whose done channel is closed. */
    method RemoveClosedQueues(done: set<Sid>)
      requires Valid()
      modifies this`queues, this`queuedBytes
      ensures Valid()
      ensures P.Buffer(Queues(), queuedBytes) == P.RemoveQueues(old(P.Buffer(Queues(), queuedBytes)), done)
    {
      var todo := queues.Keys;
      ghost var was, gone := P.Buffer(Queues(), queuedBytes), {};
      ForgetNone(was);
      while todo != {}
        invariant Valid() && todo <= queues.Keys && gone !! todo
        invariant P.Buffer(Queues(), queuedBytes) == P.RemoveQueues(was, gone)
        invariant forall sid | sid in was.queues && sid !in todo :: sid in gone <==> sid in done
      {
        var sid :| sid in todo;
        todo := todo - {sid};
        if sid in done {
          RemoveQueue(sid);
          ForgetOne(was, gone, sid);
          gone := gone + {sid};
        }
      }
      RestrictedAlike(was.queues, gone, done);
    }

    /** `refreshPendingSessions`; `sessions` are the objects of the queued sessions. */
    method RefreshPendingSessions(sessions: map<Sid, Session>, now: Time)
      requires sessions.Keys == queues.Keys && forall sid | sid in sessions :: sessions[sid].Valid()
      requires forall a, b | a in sessions && b in sessions && a != b :: sessions[a] != sessions[b]
      modifies sessions.Values
      ensures forall sid | sid in sessions :: sessions[sid].Valid()
      ensures forall sid | sid in sessions :: sessions[sid].Abs() == S.Touch(old(sessions[sid].Abs()), now)
    {
      var pending := queues.Keys;
      while pending != {}
        invariant pending <= sessions.Keys
        invariant forall sid | sid in sessions :: sessions[sid].Valid()
        invariant forall sid | sid in pending :: sessions[sid].Abs() == old(sessions[sid].Abs())
        invariant forall sid | sid in sessions && sid !in pending ::
          sessions[sid].Abs() == S.Touch(old(sessions[sid].Abs()), now)
      {
        var sid :| sid in pending;
        pending := pending - {sid};
        assert forall a | a in sessions && a != sid :: sessions[a] != sessions[sid];
        var _ := sessions[sid].Touch(now);
      }
    }

    // ---- The gate and the startup ---------------------------------------------------------

    method AdoptRunning()
      modifies this`backendRunning, this`backendReady, this`readinessGeneration
      ensures Abs() == P.AdoptRunning(old(Abs()), o.probing)
    {
      backendRunning := true;
      backendReady := !o.probing;
      if backendReady { readinessGeneration := readinessGeneration + 1; }
    }

    method MarkBackendNotRunning()
      modifies this`backendRunning, this`backendReady, this`readinessGeneration
      ensures Abs() == P.MarkNotRunning(old(Abs()))
    {
      backendRunning := false;
      if backendReady {
        backendReady := false;
        readinessGeneration := readinessGeneration + 1;
      }
    }

    /** The section of `startServer`; `started` is the generation of the new startup. */
    method StartServer(now: Time) returns (started: Option<nat>)
      modifies this`startupRunning, this`startupGeneration
      ensures started.Some? <==> P.CanStart(old(Abs()), now)
      ensures started.Some? ==> started.value == startupGeneration && Abs() == P.BeginStartup(old(Abs()))
      ensures started.None? ==> Abs() == old(Abs())
    {
      if shuttingDown || backendReady || startupRunning || now < startupBlockedUntil { return None; }
      startupRunning := true;
      startupGeneration := startupGeneration + 1;
      started := Some(startupGeneration);
    }

    method CompleteStartup(gen: nat, now: Time) returns (again: bool)
      modifies this`startupRunning
      ensures again == P.WantsRetrigger(old(Abs()), gen, now)
      ensures Abs() == P.CompleteStartup(old(Abs()), gen)
    {
      if startupGeneration != gen { return false; }
      startupRunning := false;
      assert (queues == map[]) == (Queues() == map[]) by { SameEmptiness(queues, Queues()); }
      again := !shuttingDown && !backendReady && queues != map[] && startupBlockedUntil <= now;
    }

    method FailStartup(gen: nat, permanent: bool, now: Time)
      modifies this
      ensures Valid() && Abs() == P.FailStartup(old(Abs()), gen, permanent, now, o.failureCooldown)
    {
      queues := map[];
      queuedBytes := 0;
      if startupGeneration == gen {
        startupRunning := false;
        backendRunning := false;
        if permanent { startupBlockedUntil := now + o.failureCooldown; }
      }
    }

    /** The section of `closeBackendGate`, with its test against a stale generation. */
    method CloseBackendGate(gen: nat) returns (closed: bool)
      modifies this
      requires Valid()
      ensures Valid()
      ensures closed <==> old(backendReady && readinessGeneration == gen)
      ensures Abs() == if closed then P.CloseGate(old(Abs())) else old(Abs())
    {
      if !backendReady || readinessGeneration != gen { return false; }
      backendReady := false;
      backendRunning := false;
      readinessGeneration := readinessGeneration + 1;
      NextStopGeneration();
      queues := map[];
      queuedBytes := 0;
      closed := true;
    }

    /** No running startup may complete or fail any more. */
    method RetireStartup()
      modifies this`startupRunning, this`startupGeneration
      ensures Abs() == old(Abs()).(startupRunning := false, startupGen := old(startupGeneration) + 1)
    {
      startupRunning := false;
      startupGeneration := startupGeneration + 1;
    }

    method Shutdown()
      requires Valid()
      modifies this`shuttingDown, this`backendReady, this`readinessGeneration, this`backendRunning
      modifies this`startupRunning, this`startupGeneration
      modifies this`stopTimer, this`stopGeneration, this`alarms, this`timerCount
      ensures Valid() && Abs() == P.Shutdown(old(Abs()))
    {
      shuttingDown := true;
      MarkBackendNotRunning();
      RetireStartup();
      NextStopGeneration();
    }

    // ---- Auto-stop ------------------------------------------------------------------------

    method StopAutoStopTimerLocked()
      modifies this`stopTimer, this`alarms, this`timerCount
      ensures Timers() == P.StopTimer(old(Timers()))
    {
      if stopTimer.None? { return; }
      if stopTimer.value in alarms {
        timerCount := timerCount - 1;
        alarms := alarms - {stopTimer.value};
      } else { assert alarms - {stopTimer.value} == alarms; }
      stopTimer := None;
    }

    /** A new stop generation, and its predecessor's timer stopped. */
    method NextStopGeneration()
      modifies this`stopTimer, this`stopGeneration, this`alarms, this`timerCount
      ensures Timers() == P.NextGeneration(old(Timers()))
    {
      stopGeneration := stopGeneration + 1;
      StopAutoStopTimerLocked();
    }

    method ScheduleAutoStopAttemptLocked(gen: nat, attempt: nat, now: Time, delay: Time)
      modifies this`stopTimer, this`alarms, this`nextTimer, this`timerCount
      ensures Timers() == P.Arm(old(Timers()), gen, attempt, now, delay)
    {
      timerCount := timerCount + 1;
      alarms := alarms[nextTimer := P.Alarm(gen, attempt, now, delay)];
      stopTimer := Some(nextTimer);
      nextTimer := nextTimer + 1;
    }

    method CancelAutoStop() returns (hadPendingTimer: bool)
      modifies this`stopTimer, this`stopGeneration, this`alarms, this`timerCount
      ensures Abs() == old(Abs()).(timers := P.NextGeneration(old(Timers())))
      ensures hadPendingTimer == old(stopTimer).Some?
    {
      hadPendingTimer := stopTimer.Some?;
      NextStopGeneration();
    }

    method ScheduleAutoStop(now: Time)
      modifies this`stopTimer, this`stopGeneration, this`alarms, this`nextTimer, this`timerCount
      ensures Abs() == P.ScheduleAutoStop(old(Abs()), now, o)
    {
      if shuttingDown || !backendReady { return; }
      NextStopGeneration();
      ScheduleAutoStopAttemptLocked(stopGeneration, 1, now, o.autoStopDelay);
    }

    /** The section before a Stop is requested. */
    method StopIsDue(gen: nat) returns (due: bool)
      ensures due <==> gen == Timers().gen && Abs().ready
    {
      due := gen == stopGeneration && backendReady;
    }

    /** The section after an accepted Stop, or after the last attempt. */
    method ForgetStopTimer(gen: nat)
      modifies this`stopTimer
      ensures Timers() == P.Forget(old(Timers()), gen)
    {
      if gen == stopGeneration { stopTimer := None; }
    }

    /** The section after a failed Stop that is not the last attempt. */
    method RetryAutoStop(gen: nat, attempt: nat, now: Time)
      requires 1 <= attempt
      modifies this`stopTimer, this`alarms, this`nextTimer, this`timerCount
      ensures Abs() == P.RetryStop(old(Abs()), gen, attempt, now, o)
    {
      if gen == stopGeneration && backendReady {
        var delay := o.autoStopRetryDelay * P.Doubling(attempt - 1);
        ScheduleAutoStopAttemptLocked(gen, attempt + 1, now, delay);
      }
    }

    /** `runAutoStopAttempt` without interference: `accepted` is the panel's answer to the
        Stop request. */
    method RunAutoStopAttempt(store: Store, gen: nat, attempt: nat, accepted: bool, now: Time) returns (sent: bool)
      requires 1 <= attempt
      modifies this`backendRunning, this`backendReady, this`readinessGeneration
      modifies this`stopTimer, this`alarms, this`nextTimer, this`timerCount
      ensures sent <==> store.sessions == map[] && gen == stopGeneration && old(backendReady)
      ensures !sent ==> Abs() == old(Abs())
      ensures sent && accepted ==>
        Abs() == P.MarkNotRunning(old(Abs())).(timers := P.Forget(old(Timers()), gen))
      ensures sent && !accepted && MAX_AUTO_STOP_ATTEMPTS <= attempt ==>
        Abs() == old(Abs()).(timers := P.Forget(old(Timers()), gen))
      ensures sent && !accepted && attempt < MAX_AUTO_STOP_ATTEMPTS ==>
        Abs() == P.RetryStop(old(Abs()), gen, attempt, now, o)
    {
      var active := store.Len();
      if active != 0 { return false; }
      sent := StopIsDue(gen);
      if !sent { return; }
      if accepted {
        MarkBackendNotRunning();
        ForgetStopTimer(gen);
      } else if attempt >= MAX_AUTO_STOP_ATTEMPTS {
        ForgetStopTimer(gen);
      } else {
        RetryAutoStop(gen, attempt, now);
      }
    }

    // ---- The opening flush ------------------------------------------------------------------

    /** The section of `openStartupGate`.  Every queued session is written the datagrams
        of its queue in order, up to the first that fails and closes it. */
    method OpenStartupGate(sessions: map<Sid, Session>, now: Time, sent: Datagram -> bool)
      requires Valid() && queues.Keys <= sessions.Keys
      requires forall sid | sid in sessions :: sessions[sid].Valid()
      requires forall a, b | a in sessions && b in sessions && a != b :: sessions[a] != sessions[b]
      modifies this, sessions.Values
      ensures Valid() && forall sid | sid in sessions :: sessions[sid].Valid()
      ensures old(shuttingDown) ==> Abs() == old(Abs())
      ensures !old(shuttingDown) ==> Abs() == P.OpenGate(old(Abs()))
      ensures !old(shuttingDown) ==> forall sid | sid in old(Pending()) ::
        sessions[sid].Abs() == Flushed(old(sessions[sid].Abs()), old(Pending())[sid], now, sent)
      ensures forall sid | sid in sessions && (old(shuttingDown) || sid !in old(Pending())) ::
        sessions[sid].Abs() == old(sessions[sid].Abs())
    {
      if shuttingDown { return; }
      backendRunning := true;
      FlushQueues(sessions, Pending(), now, sent);
      MarkReady();
    }

    /** The end of that section: the flushed buffer is forgotten and the gate opens. */
    method MarkReady()
      modifies this`queues, this`queuedBytes, this`backendReady, this`readinessGeneration
      ensures Valid() && Abs().(running := true) == P.OpenGate(old(Abs()))
    {
      queues := map[];
      queuedBytes := 0;
      if !backendReady {
        backendReady := true;
        readinessGeneration := readinessGeneration + 1;
      }
    }
  }

  /** The loop over the queues; `pending` holds what is queued for each session. */
  method FlushQueues(sessions: map<Sid, Session>, pending: map<Sid, seq<Datagram>>, now: Time, sent: Datagram -> bool)
    requires pending.Keys <= sessions.Keys && forall sid | sid in sessions :: sessions[sid].Valid()
    requires forall a, b | a in sessions && b in sessions && a != b :: sessions[a] != sessions[b]
    modifies sessions.Values
    ensures forall sid | sid in sessions :: sessions[sid].Valid()
    ensures forall sid | sid in pending ::
      sessions[sid].Abs() == Flushed(old(sessions[sid].Abs()), pending[sid], now, sent)
    ensures forall sid | sid in sessions && sid !in pending :: sessions[sid].Abs() == old(sessions[sid].Abs())
  {
    var todo := pending.Keys;
    while todo != {}
      invariant todo <= pending.Keys
      invariant forall sid | sid in sessions :: sessions[sid].Valid()
      invariant forall sid | sid in pending && sid !in todo ::
        sessions[sid].Abs() == Flushed(old(sessions[sid].Abs()), pending[sid], now, sent)
      invariant forall sid | sid in sessions && (sid in todo || sid !in pending) ::
        sessions[sid].Abs() == old(sessions[sid].Abs())
    {
      var sid :| sid in todo;
      todo := todo - {sid};
      assert forall a | a in sessions && a != sid :: sessions[a] != sessions[sid];
      FlushQueue(sessions[sid], pending[sid], now, sent);
    }
  }

  lemma ForgetNone(b: P.Buffer)
    ensures P.RemoveQueues(b, {}) == b
  {
    assert P.Restrict(b.queues, {}) == map[] && b.queues - {} == b.queues;
  }

  /** Removing queues one by one is removing them all. */
  lemma ForgetOne(b: P.Buffer, gone: set<Sid>, sid: Sid)
    requires sid in b.queues && sid !in gone
    ensures P.RemoveQueue(P.RemoveQueues(b, gone), sid) == P.RemoveQueues(b, gone + {sid})
  {
    Budget.TotalOfRemoval(P.Restrict(b.queues, gone + {sid}), sid);
    assert P.Restrict(b.queues, gone + {sid}) - {sid} == P.Restrict(b.queues, gone);
    assert b.queues - gone - {sid} == b.queues - (gone + {sid});
  }

  lemma Overflowed(b: P.Buffer, sid: Sid, g: Datagram, o: Options, after: map<Sid, P.Queue>)
    requires var q := P.QueueOf(b, sid);
      !P.Accepts(b, sid, g, o) && after == b.queues[sid := q][sid := q.(overflowLogged := true)]
    ensures P.Buffer(after, b.bytes) == P.Enqueue(b, sid, g, o)
  {
  }

  lemma Pushed(b: P.Buffer, sid: Sid, g: Datagram, o: Options, after: map<Sid, P.Queue>)
    requires var q := P.QueueOf(b, sid);
      && P.Accepts(b, sid, g, o)
      && after == b.queues[sid := q][sid := q.(packets := q.packets + [g], bytes := q.bytes + |g.payload|)]
    ensures P.Buffer(after, b.bytes + |g.payload|) == P.Enqueue(b, sid, g, o)
  {
  }

  lemma RestrictedAlike(m: map<Sid, P.Queue>, gone: set<Sid>, done: set<Sid>)
    requires forall sid | sid in m :: sid in gone <==> sid in done
    ensures P.Restrict(m, gone) == P.Restrict(m, done) && m - gone == m - done
  {
  }

  lemma SameEmptiness<A, B>(a: map<Sid, A>, b: map<Sid, B>)
    requires a.Keys == b.Keys
    ensures a == map[] <==> b == map[]
  {
    assert a == map[] <==> a.Keys == {};
    assert b == map[] <==> b.Keys == {};
  }

  // ---- One queue of the flush --------------------------------------------------------------

  /** How many datagrams are sent before the first failure. */
  function Sendable(packets: seq<Datagram>, sent: Datagram -> bool): (n: nat)
    ensures n <= |packets|
    ensures forall i | 0 <= i < n :: sent(packets[i])
    ensures n < |packets| ==> !sent(packets[n])
  {
    if packets == [] || !sent(packets[0]) then 0 else 1 + Sendable(packets[1..], sent)
  }

  /** A session after the flush of its queue: `ForwardClient` on one datagram after the
      other, up to the first that fails and closes it. */
  function Flushed(y: S.State, packets: seq<Datagram>, now: Time, sent: Datagram -> bool): S.State
    decreases |packets|
  {
    if y.closed || packets == [] then y
    else if sent(packets[0]) then Flushed(S.Write(S.Touch(y, now), packets[0]), packets[1..], now, sent)
    else S.Close(S.Touch(y, now))
  }

  /** The flush writes an open session the longest prefix of its queue that can be
      sent, closes it exactly if that is not all of it, and changes nothing it accepted. */
  lemma {:induction false} FlushedPrefix(y: S.State, packets: seq<Datagram>, now: Time, sent: Datagram -> bool)
    ensures var y', n := Flushed(y, packets, now, sent), (if y.closed then 0 else Sendable(packets, sent));
      && y'.written == y.written + packets[..n]
      && (y'.closed <==> y.closed || n < |packets|)
      && y'.accepted == y.accepted && y'.key == y.key && y'.done == y.done
    decreases |packets|
  {
    if !y.closed && packets != [] && sent(packets[0]) {
      FlushedPrefix(S.Write(S.Touch(y, now), packets[0]), packets[1..], now, sent);
      var n := Sendable(packets[1..], sent);
      assert y.written + [packets[0]] + packets[1..][..n] == y.written + packets[..n + 1];
    }
  }

  method FlushQueue(active: Session, packets: seq<Datagram>, now: Time, sent: Datagram -> bool)
    requires active.Valid()
    modifies active
    ensures active.Valid() && active.Abs() == Flushed(old(active.Abs()), packets, now, sent)
  {
    var i := 0;
    while i < |packets|
      invariant 0 <= i <= |packets| && active.Valid()
      invariant Flushed(old(active.Abs()), packets, now, sent) == Flushed(active.Abs(), packets[i..], now, sent)
    {
      var r := active.ForwardClient(packets[i], now, sent(packets[i]));
      assert packets[i..][1..] == packets[i + 1..];
      if !r.Forwarded? { return; }
      i := i + 1;
    }
  }
}
