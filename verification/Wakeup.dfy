/** No lost wake-up: behind a closed gate, queued datagrams are waiting for a
    startup that runs or is about to be requested. */
module Wakeup {
  import opened Basics
  import opened Lifecycle
  import opened Control
  import opened Facts
  import opened Sessions
  import opened Invariant
  import E = Effects

  predicate InsideAt(s: State, gen: nat) {
    Startup(gen) in s.threads && Inside(s.threads[Startup(gen)])
  }

  predicate RetriggerAt(s: State, gen: nat) {
    Startup(gen) in s.threads && s.threads[Startup(gen)] == Opening(Retrigger)
  }

  predicate AboutToStart(s: State) {
    || (Loop in s.threads && s.threads[Loop].Forwarding? && s.threads[Loop].fwd.FwdStart?)
    || RetriggerAt(s, s.d.p.startupGen)
  }

  predicate WakeupOk(s: State) {
    && (s.d.p.startupRunning ==> InsideAt(s, s.d.p.startupGen))
    && (s.d.now < s.d.p.blockedUntil ==> s.d.p.buffer.queues == map[])
    && Awaited(s)
  }

  /** Queued datagrams have a startup under way or about to be requested. */
  predicate Awaited(s: State) {
    !s.d.p.shuttingDown && !s.d.p.ready && s.d.p.buffer.queues != map[] ==>
      s.d.p.startupRunning || AboutToStart(s)
  }

  /** How a startup goroutine leaves `ensureRunning`. */
  predicate LeavesInside(pc: Pc, pc': Pc, op: Op, gen: nat) {
    && (Inside(pc) && !Inside(pc') ==>
          op == Complete(gen) || (op.Teared? && op.why.Failed? && op.why.gen == gen))
    && (pc == Opening(Retrigger) ==> op.TryStart?)
    && (op.Complete? ==> op.gen == gen)
  }

  lemma InsideSteps(d: Data, gen: nat, pc: Pc, x: Input)
    requires Role(Startup(gen), pc) && Plan(d, Startup(gen), pc, x).Go?
    ensures LeavesInside(pc, Plan(d, Startup(gen), pc, x).pc, Plan(d, Startup(gen), pc, x).op, gen)
  {
  }

  predicate LeavesFwdStart(pc: Pc, op: Op) {
    pc.Forwarding? && pc.fwd.FwdStart? ==> op.TryStart?
  }

  lemma FwdStartSteps(d: Data, pc: Pc, x: Input)
    requires Plan(d, Loop, pc, x).Go?
    ensures LeavesFwdStart(pc, Plan(d, Loop, pc, x).op)
  {
  }

  /** The part of `WakeupOk` that is about the data alone. */
  lemma QuietQueues(s: State, s': State, t: Tid, m: Move)
    requires Inv(s) && WakeupOk(s) && Stepping(s, s', t, m)
    ensures s'.d.now < s'.d.p.blockedUntil ==> s'.d.p.buffer.queues == map[]
  {
    assert At(s, t);
    if m.op.Enqueue? && m.op.sid in s.d.sess { EnqueueOutsideCooldown(s, m.op.sid); }
    QuietData(s.d, s'.d, s.threads[t], m.pc, m.op);
  }

  lemma QuietData(d: Data, d': Data, pc: Pc, pc': Pc, op: Op)
    requires d.now < d.p.blockedUntil ==> d.p.buffer.queues == map[]
    requires op.Enqueue? && op.sid in d.sess ==> d.p.blockedUntil <= d.now
    requires Performs(d, pc, pc', op) && Applied(d, d', op)
    ensures d'.now < d'.p.blockedUntil ==> d'.p.buffer.queues == map[]
  {
    E.ClockFrame(d, d', op);
    E.GateFrame(d, d', op);
    E.BufferChange(d, d', op);
  }

  lemma RunningIsInside(s: State, s': State, t: Tid, m: Move)
    requires WakeupOk(s) && Stepping(s, s', t, m)
    requires t.Startup? ==> LeavesInside(s.threads[t], m.pc, m.op, t.gen)
    ensures s'.d.p.startupRunning ==> InsideAt(s', s'.d.p.startupGen)
  {
    E.StartupFrame(s.d, s'.d, m.op);
    if !(m.op.TryStart? || m.op.Teared? || m.op.Complete?) { StaysInside(s, s', t, m); }
  }

  /** The running startup goes on where no operation ends or begins one. */
  lemma StaysInside(s: State, s': State, t: Tid, m: Move)
    requires WakeupOk(s) && Stepping(s, s', t, m) && !(m.op.TryStart? || m.op.Teared? || m.op.Complete?)
    requires t.Startup? ==> LeavesInside(s.threads[t], m.pc, m.op, t.gen)
    requires s'.d.p.startupGen == s.d.p.startupGen && s'.d.p.startupRunning == s.d.p.startupRunning
    ensures s'.d.p.startupRunning ==> InsideAt(s', s'.d.p.startupGen)
  {
  }

  lemma WakeupStep(s: State, s': State, t: Tid, x: Input)
    requires Inv(s) && WakeupOk(s) && ThreadStep(s, s', t, x)
    ensures WakeupOk(s')
  {
    var pc := s.threads[t];
    var m := Plan(s.d, t, pc, x);
    assert At(s, t) && At(s, Loop);
    Steps(s, s', t, x);
    if t.Startup? { InsideSteps(s.d, t.gen, pc, x); }
    if t.Loop? { FwdStartSteps(s.d, pc, x); }
    QuietQueues(s, s', t, m);
    RunningIsInside(s, s', t, m);
    QueuedIsAwaited(s, s', t, m);
  }

  lemma QueuedIsAwaited(s: State, s': State, t: Tid, m: Move)
    requires Inv(s) && WakeupOk(s) && Stepping(s, s', t, m)
    requires t.Startup? ==> LeavesInside(s.threads[t], m.pc, m.op, t.gen)
    requires t.Loop? ==> LeavesFwdStart(s.threads[t], m.op)
    ensures Awaited(s')
  {
    assert At(s, t);
    E.BufferChange(s.d, s'.d, m.op);
    if m.op.TryStart? || m.op.Complete? { AwaitedStartup(s, s', t, m); }
    else if E.ChangesGate(m.op) { AwaitedGate(s, s', t, m); }
    else {
      E.StartupFrame(s.d, s'.d, m.op);
      E.GateFrame(s.d, s'.d, m.op);
      AwaitedQuiet(s, s', t, m);
    }
  }

  lemma AwaitedQuiet(s: State, s': State, t: Tid, m: Move)
    requires WakeupOk(s) && Stepping(s, s', t, m) && !m.op.TryStart? && !m.op.Complete?
    requires t.Startup? ==> LeavesInside(s.threads[t], m.pc, m.op, t.gen)
    requires t.Loop? ==> LeavesFwdStart(s.threads[t], m.op)
    requires E.BufferEffect(s.d, s'.d, m.op)
    requires s'.d.p.startupGen == s.d.p.startupGen && s'.d.p.startupRunning == s.d.p.startupRunning
    requires s'.d.p.ready == s.d.p.ready && s'.d.p.shuttingDown == s.d.p.shuttingDown
    ensures Awaited(s')
  {
  }

  /** The gate closes over empty queues, or with a startup still under way. */
  lemma AwaitedGate(s: State, s': State, t: Tid, m: Move)
    requires GateOk(s.d.p) && WakeupOk(s) && Stepping(s, s', t, m) && E.ChangesGate(m.op)
    requires t.Startup? ==> LeavesInside(s.threads[t], m.pc, m.op, t.gen)
    requires E.BufferEffect(s.d, s'.d, m.op) && Fact(s.d, t, s.threads[t])
    ensures Awaited(s')
  {
  }

  /** `startServer` starts what is needed, and `completeStartup` asks for it again. */
  lemma AwaitedStartup(s: State, s': State, t: Tid, m: Move)
    requires WakeupOk(s) && Stepping(s, s', t, m) && (m.op.TryStart? || m.op.Complete?)
    requires t.Startup? ==> LeavesInside(s.threads[t], m.pc, m.op, t.gen)
    requires E.BufferEffect(s.d, s'.d, m.op) && Fact(s.d, t, s.threads[t])
    ensures Awaited(s')
  {
  }

  lemma WakeupOutside(s: State, s': State, op: Op)
    requires Inv(s) && WakeupOk(s) && OutsideStep(s, s', op)
    ensures WakeupOk(s')
  {
    E.ClockFrame(s.d, s'.d, op);
    E.GateFrame(s.d, s'.d, op);
    E.StartupFrame(s.d, s'.d, op);
    E.QueueFrame(s.d, s'.d, op);
  }
}
