/** What the operations leave alone, one aspect of the data at a time. */
module Effects {
  import opened Basics
  import opened Lifecycle
  import P = ProxyState
  import S = SessionState

  predicate ChangesGate(op: Op) {
    op.AdoptRunning? || op.Teared? || op.MarkStopped? || op.OpenGate?
  }

  predicate ChangesQueues(op: Op) {
    op.Enqueue? || op.RemoveQueue? || op.RemoveQueues? || op.Teared? || op.OpenGate?
  }

  predicate ChangesStore(op: Op) {
    op.Unstore? || op.Expire? || op.Insert? || op.TakeAll?
  }

  predicate ChangesTimers(op: Op) {
    || op.CancelTimer? || op.ScheduleTimer? || op.Fire? || op.Teared? || op.ForgetTimer? || op.RetryStop?
    || op.EndCallback?
  }

  lemma ClockFrame(d: Data, d': Data, op: Op)
    requires Applied(d, d', op)
    ensures d'.o == d.o && d.now <= d'.now && (!op.Elapse? ==> d'.now == d.now)
  {
  }

  lemma GateFrame(d: Data, d': Data, op: Op)
    requires Applied(d, d', op)
    ensures !ChangesGate(op) ==> d'.p.ready == d.p.ready && d'.p.readyGen == d.p.readyGen
    ensures !op.Teared? ==>
      && d'.p.shuttingDown == d.p.shuttingDown && d'.p.blockedUntil == d.p.blockedUntil
      && d'.h.permanentFailures == d.h.permanentFailures
  {
  }

  lemma StartupFrame(d: Data, d': Data, op: Op)
    requires Applied(d, d', op)
    ensures d.p.startupGen <= d'.p.startupGen
    ensures !(op.TryStart? || op.Teared? || op.Complete?) ==>
      d'.p.startupGen == d.p.startupGen && d'.p.startupRunning == d.p.startupRunning
  {
  }

  lemma QueueFrame(d: Data, d': Data, op: Op)
    requires Applied(d, d', op) && !ChangesQueues(op)
    ensures d'.p.buffer.queues == d.p.buffer.queues && d'.p.buffer.bytes == d.p.buffer.bytes
  {
  }

  /** How an operation changes the startup buffer. */
  ghost predicate BufferEffect(d: Data, d': Data, op: Op) {
    && (op.Enqueue? ==> op.sid in d.sess && d'.p.buffer == P.Enqueue(d.p.buffer, op.sid, op.d, d.o))
    && (op.RemoveQueue? ==> d'.p.buffer == P.RemoveQueue(d.p.buffer, op.sid))
    && (op.RemoveQueues? ==> d'.p.buffer == P.RemoveQueues(d.p.buffer, DoneSessions(d)))
    && (op.OpenGate? ==> d'.p.buffer == P.EMPTY_BUFFER)
    && (op.Teared? ==> d'.p.buffer == if op.why.Shutdown? then d.p.buffer else P.EMPTY_BUFFER)
    && (!ChangesQueues(op) ==> d'.p.buffer == d.p.buffer)
  }

  lemma BufferChange(d: Data, d': Data, op: Op)
    requires Applied(d, d', op)
    ensures BufferEffect(d, d', op)
  {
  }

  lemma StoreFrame(d: Data, d': Data, op: Op)
    requires Applied(d, d', op) && !ChangesStore(op)
    ensures d'.store == d.store && d'.h.removed == d.h.removed
  {
  }

  /** How an operation changes the session `sid`. */
  predicate SessionEffect(d: Data, d': Data, op: Op, sid: Sid)
  {
    && (sid !in d.sess && sid in d'.sess ==>
          op.Insert? && op.sid == sid && d'.sess[sid] == S.New(op.key, d.now))
    && (sid in d.sess ==>
          && sid in d'.sess
          && ((op.Insert? && op.sid == sid) || SessionKeeps(d, d.sess[sid], d'.sess[sid], op, sid)))
  }

  predicate SessionKeeps(d: Data, y: S.State, y': S.State, op: Op, sid: Sid) {
    && y'.key == y.key
    && (y'.closed <==> y.closed || ((op.Close? || op.Expire?) && op.sid == sid))
    && (y'.done <==> y.done || (op.FinishReader? && op.sid == sid))
    && y'.lastActivity == (if !y.closed && (op.Enqueue? || op.Touch? || op.FlushWrite?) && op.sid == sid then d.now
                           else y.lastActivity)
    && y'.accepted == (if (op.Forward? || (op.Enqueue? && P.Accepts(d.p.buffer, sid, op.d, d.o))) && op.sid == sid
                       then y.accepted + [op.d] else y.accepted)
    && y'.written == (if (op.Forward? || op.FlushWrite?) && op.sid == sid then y.written + [op.d] else y.written)
  }

  lemma SessionChange(d: Data, d': Data, op: Op, sid: Sid)
    requires Applied(d, d', op)
    ensures SessionEffect(d, d', op, sid)
  {
    SessionMapChange(d, d', op, sid);
  }

  lemma SessionMapChange(d: Data, d': Data, op: Op, sid: Sid)
    requires SessionsApplied(d, d'.sess, op)
    ensures SessionEffect(d, d', op, sid)
  {
  }

  lemma TimerFrame(d: Data, d': Data, op: Op)
    requires Applied(d, d', op) && !ChangesTimers(op)
    ensures d'.p.timers == d.p.timers && d'.h.callbacks == d.h.callbacks
  {
  }

  predicate Grows(m: P.Timers, m': P.Timers, id: TimerId) {
    && m.next <= m'.next
    && (id in m'.alarms ==> id in m.alarms || (id == m.next && id < m'.next))
  }

  lemma AlarmGrowth(d: Data, d': Data, op: Op, id: TimerId)
    requires Applied(d, d', op)
    ensures Grows(d.p.timers, d'.p.timers, id)
  {
    if !ChangesTimers(op) { TimerFrame(d, d', op); }
  }
}
