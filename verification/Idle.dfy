/** The idle sweep never expires a session that waits in the startup buffer. */
module Idle {
  import opened Basics
  import opened Lifecycle
  import opened Control
  import opened Facts
  import opened Sessions
  import opened Invariant
  import E = Effects

  /** A queued session is closed or was active at or after the sweep's tick. */
  predicate RecentAt(d: Data, sid: Sid, tick: Time) {
    sid in d.p.buffer.queues && sid in d.sess ==> d.sess[sid].closed || tick <= d.sess[sid].lastActivity
  }

  predicate IdleOk(d: Data, sweeper: Pc, sid: Sid) {
    sweeper.Sweeping? ==>
      match sweeper.sweep
      case SweepPending(tick) => tick <= d.now
      case Refresh(tick, pending) => tick <= d.now && (sid in pending || RecentAt(d, sid, tick))
      case ExpireLock(tick) => tick <= d.now && RecentAt(d, sid, tick)
      case Expiring(tick, _) => tick <= d.now && RecentAt(d, sid, tick)
      case _ => true
  }

  lemma IdleOwn(d: Data, d': Data, pc: Pc, x: Input, sid: Sid)
    requires pc.Sweeping? && IdleOk(d, pc, sid) && Plan(d, Sweeper, pc, x).Go?
    requires Applied(d, d', Plan(d, Sweeper, pc, x).op)
    ensures IdleOk(d', Plan(d, Sweeper, pc, x).pc, sid)
  {
  }

  /** A session enters the queues only with fresh activity. */
  lemma RecentKept(d: Data, d': Data, op: Op, sid: Sid, tick: Time)
    requires Applied(d, d', op) && tick <= d.now && RecentAt(d, sid, tick)
    requires sid in d.p.buffer.queues ==> sid in d.sess
    requires op.Insert? ==> op.sid !in d.sess
    ensures tick <= d'.now && RecentAt(d', sid, tick)
  {
    E.ClockFrame(d, d', op);
    E.SessionChange(d, d', op, sid);
    if !E.ChangesQueues(op) { E.QueueFrame(d, d', op); }
  }

  lemma IdleOther(d: Data, d': Data, pc: Pc, op: Op, sid: Sid)
    requires Applied(d, d', op) && IdleOk(d, pc, sid)
    requires sid in d.p.buffer.queues ==> sid in d.sess
    requires op.Insert? ==> op.sid !in d.sess
    ensures IdleOk(d', pc, sid)
  {
    E.ClockFrame(d, d', op);
    if pc.Sweeping? && (pc.sweep.Refresh? || pc.sweep.ExpireLock? || pc.sweep.Expiring?) {
      if pc.sweep.Refresh? && sid in pc.sweep.pending { }
      else { RecentKept(d, d', op, sid, pc.sweep.tick); }
    }
  }

  ghost predicate IdleInv(s: State) {
    Sweeper in s.threads ==>
      forall sid {:trigger IdleOk(s.d, s.threads[Sweeper], sid)} :: IdleOk(s.d, s.threads[Sweeper], sid)
  }

  lemma IdleAtKept(s: State, s': State, t: Tid, x: Input, sid: Sid)
    requires Inv(s) && IdleInv(s) && ThreadStep(s, s', t, x) && Sweeper in s'.threads
    ensures IdleOk(s'.d, s'.threads[Sweeper], sid)
  {
    var pc := s.threads[t];
    var m := Plan(s.d, t, pc, x);
    assert At(s, t) && SessionAt(s, sid);
    Steps(s, s', t, x);
    if t == Sweeper {
      assert IdleOk(s.d, pc, sid);
      if pc.Sweeping? { IdleOwn(s.d, s'.d, pc, x, sid); }
    } else {
      OtherPc(s, s', t, m, Sweeper);
      if Sweeper in s.threads {
        assert IdleOk(s.d, s.threads[Sweeper], sid);
        IdleOther(s.d, s'.d, s.threads[Sweeper], m.op, sid);
      }
    }
  }

  lemma IdleStep(s: State, s': State, t: Tid, x: Input)
    requires Inv(s) && IdleInv(s) && ThreadStep(s, s', t, x)
    ensures IdleInv(s')
  {
    if Sweeper in s'.threads {
      forall sid {:trigger IdleOk(s'.d, s'.threads[Sweeper], sid)} ensures IdleOk(s'.d, s'.threads[Sweeper], sid) {
        IdleAtKept(s, s', t, x, sid);
      }
    }
  }

  lemma IdleOutside(s: State, s': State, op: Op)
    requires Inv(s) && IdleInv(s) && OutsideStep(s, s', op)
    ensures IdleInv(s')
  {
    if Sweeper in s'.threads {
      forall sid {:trigger IdleOk(s'.d, s'.threads[Sweeper], sid)} ensures IdleOk(s'.d, s'.threads[Sweeper], sid) {
        assert SessionAt(s, sid) && IdleOk(s.d, s.threads[Sweeper], sid);
        IdleOther(s.d, s'.d, s.threads[Sweeper], op, sid);
      }
    }
  }
}
