/** What holds of the shared data at each program counter, and why no other
    goroutine disturbs it. */
module Facts {
  import opened Basics
  import opened Lifecycle
  import opened Control
  import P = ProxyState
  import E = Effects

  // ---- The gate and the wake gate, as facts about the data -----------------

  predicate GateOk(p: P.State) {
    && (p.ready <==> p.readyGen % 2 == 1)
    && (p.ready ==> p.running && p.buffer.queues == map[] && !p.shuttingDown)
    && (p.shuttingDown ==> !p.startupRunning)
  }

  predicate WakeOk(d: Data) {
    && (d.p.running || d.p.ready ==> d.h.wake)
    && (d.h.wake ==> d.h.everWake)
    && (!d.h.everWake ==> d.sess == map[] && d.h.starts == 0)
  }

  /** Permanent failures are spaced by the cooldown, which `blockedUntil` tracks. */
  predicate RateOk(d: Data) {
    var f, c := d.h.permanentFailures, d.o.failureCooldown;
    && d.p.blockedUntil == (if f == [] then 0 else f[|f| - 1] + c)
    && forall i | 0 <= i < |f| - 1 :: f[i] + c <= f[i + 1]
  }

  predicate DataOk(d: Data) {
    GateOk(d.p) && WakeOk(d) && RateOk(d)
  }

  /** What the data invariants need to hold before an operation. */
  predicate OpGuard(d: Data, op: Op) {
    match op
    case AdoptRunning => d.p == P.INITIAL
    case Enqueue(_, _) => !d.p.ready
    case Insert(_, _) => d.h.wake
    case OpenGate => d.h.wake && !d.p.shuttingDown
    case SetRunning => d.h.wake
    case Teared(why) =>
      && (why.Lost? ==> d.p.ready)
      && (why.Failed? ==> !d.p.ready && (why.gen == d.p.startupGen ==> d.p.blockedUntil <= d.now))
    case StartSent => d.h.everWake
    case _ => true
  }

  lemma GateKept(d: Data, d': Data, op: Op)
    requires GateOk(d.p) && OpGuard(d, op) && Applied(d, d', op)
    ensures GateOk(d'.p)
  {
  }

  lemma WakeKept(d: Data, d': Data, op: Op)
    requires GateOk(d.p) && WakeOk(d) && OpGuard(d, op) && Applied(d, d', op)
    ensures WakeOk(d')
  {
  }

  lemma RateKept(d: Data, d': Data, op: Op)
    requires RateOk(d) && OpGuard(d, op) && Applied(d, d', op)
    ensures RateOk(d')
  {
    E.ClockFrame(d, d', op);
    if !op.Teared? { E.GateFrame(d, d', op); } else { TearedRate(d, d', op.why); }
  }

  lemma TearedRate(d: Data, d': Data, why: Why)
    requires RateOk(d) && OpGuard(d, Teared(why)) && Applied(d, d', Teared(why))
    ensures RateOk(d')
  {
  }

  // ---- Facts at program counters -------------------------------------------

  /** The generation of the goroutine inside `ensureRunning`; shutdown counts on once. */
  function InsideGen(p: P.State): int {
    if p.shuttingDown then p.startupGen - 1 else p.startupGen
  }

  /** Startup goroutines that have not opened the gate. */
  predicate PreOpen(pc: Pc) {
    match pc
    case Ensuring(_) => true
    case Marking(after, _) => !after.ToForget?
    case Opening(at) => at.OpenAdmission? || at.OpenForwarding? || at.OpenMu? || at.Flush?
    case Teardown(why, at) => why.Failed? && (at.TdAdmission? || at.TdForwarding? || at.TdMu?)
    case _ => false
  }

  /** Startup goroutines that have not reached `completeStartup` or `failStartup`. */
  predicate Inside(pc: Pc) {
    PreOpen(pc) || (pc.Opening? && !pc.open.Retrigger?)
  }

  /** Startup goroutines past a Running observation and before the opening. */
  predicate SawRunning(pc: Pc) {
    match pc
    case Ensuring(at) => at.AwaitReady? || at.Settle? || at.Reprobe?
    case Opening(_) => PreOpen(pc)
    case _ => false
  }

  predicate StartupFact(d: Data, gen: nat, pc: Pc) {
    && (!pc.Exited? ==> d.h.everWake)
    && (Inside(pc) ==>
          && gen == InsideGen(d.p)
          && (!d.p.shuttingDown ==> d.p.startupRunning && d.p.blockedUntil <= d.now))
    && (PreOpen(pc) ==> !d.p.ready)
    && (SawRunning(pc) && !d.p.shuttingDown ==> d.h.wake)
    && (pc.Opening? && pc.open.Flush? ==> !d.p.shuttingDown)
  }

  predicate ForwardFact(d: Data, at: ForwardPc) {
    match at
    case FwdStart => !d.p.ready && d.p.blockedUntil <= d.now
    case FwdTouch => d.p.ready
    case FwdWrite => d.p.ready
    case _ => true
  }

  predicate OnlyStored(d: Data, key: Key, sid: Sid) {
    key in d.store ==> d.store[key] == sid
  }

  predicate AdmitFact(d: Data, at: AdmitPc, key: Key) {
    match at
    case ReplRemove(sid) => OnlyStored(d, key, sid)
    case ReplClose(_) => key !in d.store
    case ReplWait(_) => key !in d.store
    case ReplQueue(_) => key !in d.store
    case Decide => key !in d.store
    case Create(_) => key !in d.store && d.h.wake && d.p.blockedUntil <= d.now
    case CancelStop(sid, _) => sid in d.sess
    case AdmStart => d.h.everWake
    case _ => true
  }

  predicate TornDown(at: TeardownPc) {
    at.TdTake? || at.TdClose? || at.TdWait?
  }

  predicate LoopFact(d: Data, pc: Pc) {
    match pc
    case Serving(at) =>
      && (at.InitStatus? ==> d.p == P.INITIAL)
      && (at.InitStart? ==> d.h.everWake)
      && (d.p.shuttingDown <==> at.WaitTimers? || at.WaitGroup? || at.Returned?)
      && (d.p.shuttingDown ==> d.store == map[])
    case Forwarding(at, key, sid, _, site) =>
      && !d.p.shuttingDown && sid in d.sess && ForwardFact(d, at)
      && (site.Retry? ==> OnlyStored(d, key, sid))
    case Admitting(at, key, _) => !d.p.shuttingDown && AdmitFact(d, at, key)
    case Teardown(_, at) => d.p.shuttingDown <==> (TornDown(at) || at.TdLeave?)
    case _ => true
  }

  predicate StopFact(d: Data, pc: Pc) {
    match pc
    case Marking(_, _) => d.p.ready && d.store == map[]
    case AutoStop(at, _, _) =>
      && (at.CbMu? || at.StopInFlight? || at.CbForget? || at.CbRetry? ==> d.store == map[])
      && (at.StopInFlight? ==> d.p.ready)
    case _ => true
  }

  predicate TeardownFact(d: Data, pc: Pc) {
    pc.Teardown? ==>
      && (TornDown(pc.td) ==> !d.p.ready)
      && (pc.td.TdClose? || pc.td.TdWait? ==> d.store == map[])
      && (pc.td.TdLeave? && pc.why.Shutdown? ==> d.store == map[])
  }

  predicate Fact(d: Data, t: Tid, pc: Pc) {
    && (t.Startup? ==> StartupFact(d, t.gen, pc))
    && (t.Loop? ==> LoopFact(d, pc))
    && (t.Callback? ==> StopFact(d, pc))
    && TeardownFact(d, pc)
  }

  lemma Guarded(d: Data, t: Tid, pc: Pc, x: Input)
    requires DataOk(d) && Role(t, pc) && Fact(d, t, pc) && Plan(d, t, pc, x).Go?
    ensures OpGuard(d, Plan(d, t, pc, x).op)
  {
  }

  /** What the facts read, unchanged or moved in the harmless direction. */
  predicate Same(d: Data, d': Data) {
    && d'.p.ready == d.p.ready && d'.p.readyGen == d.p.readyGen && d'.p.shuttingDown == d.p.shuttingDown
    && d'.p.startupGen == d.p.startupGen && d'.p.startupRunning == d.p.startupRunning
    && d'.p.blockedUntil == d.p.blockedUntil && d.now <= d'.now
    && (d.h.everWake ==> d'.h.everWake) && (d.h.wake ==> d'.h.wake)
    && d'.store.Keys <= d.store.Keys && (forall key | key in d'.store :: d'.store[key] == d.store[key])
    && d.sess.Keys <= d'.sess.Keys
  }

  /** The operations that are not `Same`. */
  predicate Special(op: Op) {
    || op.AdoptRunning? || op.TryStart? || op.Insert? || op.Teared? || op.MarkStopped? || op.OpenGate?
    || op.Complete?
  }

  lemma SameKept(d: Data, d': Data, op: Op)
    requires !Special(op) && Applied(d, d', op)
    ensures Same(d, d')
  {
  }

  lemma FactUnderSame(d: Data, d': Data, t: Tid, pc: Pc)
    requires Same(d, d') && Fact(d, t, pc) && (pc.Serving? ==> !pc.serve.InitStatus?)
    ensures Fact(d', t, pc)
  {
  }

  /** Operations after which the goroutine's next fact relies on the change. */
  predicate Gains(op: Op) {
    op.Unstore? || op.TakeAll? || op.Detected? || op.ObserveRunning?
  }

  /** Sessions in the store exist under their key. */
  predicate StoreOk(d: Data) {
    forall key | key in d.store :: d.store[key] in d.sess && d.sess[d.store[key]].key == key
  }

  lemma PlannedFact(d: Data, t: Tid, pc: Pc, x: Input)
    requires DataOk(d) && StoreOk(d) && Role(t, pc) && Fact(d, t, pc) && Plan(d, t, pc, x).Go?
    requires var op := Plan(d, t, pc, x).op; !Special(op) && !Gains(op)
    requires pc.Forwarding? && pc.fwd.FwdCheck? && Plan(d, t, pc, x).op.Enqueue? ==> d.p.blockedUntil <= d.now
    ensures Fact(d, t, Plan(d, t, pc, x).pc)
  {
    if t.Loop? { PlannedLoop(d, t, pc, x); }
    else if t.Startup? { PlannedStartup(d, t, pc, x); }
    else { PlannedOther(d, t, pc, x); }
  }

  lemma PlannedLoop(d: Data, t: Tid, pc: Pc, x: Input)
    requires DataOk(d) && StoreOk(d) && Role(t, pc) && Fact(d, t, pc) && Plan(d, t, pc, x).Go?
    requires var op := Plan(d, t, pc, x).op; !Special(op) && !Gains(op)
    requires pc.Forwarding? && pc.fwd.FwdCheck? && Plan(d, t, pc, x).op.Enqueue? ==> d.p.blockedUntil <= d.now
    requires t.Loop?
    ensures Fact(d, t, Plan(d, t, pc, x).pc)
  {
    if pc.Admitting? { PlannedAdmitting(d, t, pc, x); }
  }

  lemma PlannedAdmitting(d: Data, t: Tid, pc: Pc, x: Input)
    requires DataOk(d) && StoreOk(d) && Role(t, pc) && Fact(d, t, pc) && Plan(d, t, pc, x).Go?
    requires var op := Plan(d, t, pc, x).op; !Special(op) && !Gains(op)
    requires t.Loop? && pc.Admitting?
    ensures Fact(d, t, Plan(d, t, pc, x).pc)
  {
  }

  lemma PlannedStartup(d: Data, t: Tid, pc: Pc, x: Input)
    requires GateOk(d.p) && Role(t, pc) && Fact(d, t, pc) && Plan(d, t, pc, x).Go?
    requires var op := Plan(d, t, pc, x).op; !Special(op) && !Gains(op)
    requires t.Startup?
    ensures Fact(d, t, Plan(d, t, pc, x).pc)
  {
  }

  lemma PlannedOther(d: Data, t: Tid, pc: Pc, x: Input)
    requires GateOk(d.p) && Role(t, pc) && Fact(d, t, pc) && Plan(d, t, pc, x).Go?
    requires var op := Plan(d, t, pc, x).op; !Special(op) && !Gains(op)
    requires !t.Loop? && !t.Startup?
    ensures Fact(d, t, Plan(d, t, pc, x).pc)
  {
  }

  lemma GainedFact(d: Data, d': Data, t: Tid, pc: Pc, pc': Pc, op: Op)
    requires Role(t, pc) && Fact(d, t, pc) && GateOk(d.p)
    requires Gains(op) && Performs(d, pc, pc', op) && Applied(d, d', op)
    ensures Fact(d', t, pc')
  {
  }

  lemma TearedOwn(d: Data, d': Data, t: Tid, pc: Pc, pc': Pc, op: Op)
    requires GateOk(d.p) && Role(t, pc) && Fact(d, t, pc)
    requires (op.Teared?) && Performs(d, pc, pc', op) && Applied(d, d', op)
    ensures Fact(d', t, pc')
  {
  }

  lemma TearedOther(d: Data, d': Data, t: Tid, pc: Pc, pc': Pc, op: Op, u: Tid, pcu: Pc)
    requires t != u && Role(t, pc) && Role(u, pcu) && Exclusive(pc, pcu) && GateOk(d.p)
    requires Fact(d, t, pc) && Fact(d, u, pcu)
    requires pc == Serving(InitStatus) ==> pcu.Exited?
    requires pcu != Serving(InitStatus)
    requires (op.Teared?) && Performs(d, pc, pc', op) && Applied(d, d', op)
    ensures Fact(d', u, pcu)
  {
  }

  lemma MarkedOwn(d: Data, d': Data, t: Tid, pc: Pc, pc': Pc, op: Op)
    requires GateOk(d.p) && Role(t, pc) && Fact(d, t, pc)
    requires (op.MarkStopped?) && Performs(d, pc, pc', op) && Applied(d, d', op)
    ensures Fact(d', t, pc')
  {
  }

  lemma MarkedOther(d: Data, d': Data, t: Tid, pc: Pc, pc': Pc, op: Op, u: Tid, pcu: Pc)
    requires t != u && Role(t, pc) && Role(u, pcu) && Exclusive(pc, pcu) && GateOk(d.p)
    requires Fact(d, t, pc) && Fact(d, u, pcu)
    requires pc == Serving(InitStatus) ==> pcu.Exited?
    requires pcu != Serving(InitStatus)
    requires (op.MarkStopped?) && Performs(d, pc, pc', op) && Applied(d, d', op)
    ensures Fact(d', u, pcu)
  {
  }

  lemma OpenedOwn(d: Data, d': Data, t: Tid, pc: Pc, pc': Pc, op: Op)
    requires GateOk(d.p) && Role(t, pc) && Fact(d, t, pc)
    requires (op.OpenGate? || op.Complete?) && Performs(d, pc, pc', op) && Applied(d, d', op)
    ensures Fact(d', t, pc')
  {
  }

  lemma OpenedOther(d: Data, d': Data, t: Tid, pc: Pc, pc': Pc, op: Op, u: Tid, pcu: Pc)
    requires t != u && Role(t, pc) && Role(u, pcu) && Exclusive(pc, pcu) && GateOk(d.p)
    requires Fact(d, t, pc) && Fact(d, u, pcu)
    requires pc == Serving(InitStatus) ==> pcu.Exited?
    requires pcu != Serving(InitStatus)
    requires (op.OpenGate? || op.Complete?) && Performs(d, pc, pc', op) && Applied(d, d', op)
    ensures Fact(d', u, pcu)
  {
  }

  lemma StartedOwn(d: Data, d': Data, t: Tid, pc: Pc, pc': Pc, op: Op)
    requires GateOk(d.p) && Role(t, pc) && Fact(d, t, pc)
    requires (op.TryStart?) && Performs(d, pc, pc', op) && Applied(d, d', op)
    ensures Fact(d', t, pc')
  {
  }

  lemma StartedOther(d: Data, d': Data, t: Tid, pc: Pc, pc': Pc, op: Op, u: Tid, pcu: Pc)
    requires t != u && Role(t, pc) && Role(u, pcu) && Exclusive(pc, pcu) && GateOk(d.p)
    requires Fact(d, t, pc) && Fact(d, u, pcu)
    requires pc == Serving(InitStatus) ==> pcu.Exited?
    requires pcu != Serving(InitStatus)
    requires (op.TryStart?) && Performs(d, pc, pc', op) && Applied(d, d', op)
    ensures Fact(d', u, pcu)
  {
  }

  lemma AdmittedOwn(d: Data, d': Data, t: Tid, pc: Pc, pc': Pc, op: Op)
    requires GateOk(d.p) && Role(t, pc) && Fact(d, t, pc)
    requires (op.Insert? || op.AdoptRunning?) && Performs(d, pc, pc', op) && Applied(d, d', op)
    ensures Fact(d', t, pc')
  {
  }

  lemma AdmittedOther(d: Data, d': Data, t: Tid, pc: Pc, pc': Pc, op: Op, u: Tid, pcu: Pc)
    requires t != u && Role(t, pc) && Role(u, pcu) && Exclusive(pc, pcu) && GateOk(d.p)
    requires Fact(d, t, pc) && Fact(d, u, pcu)
    requires pc == Serving(InitStatus) ==> pcu.Exited?
    requires pcu != Serving(InitStatus)
    requires (op.Insert? || op.AdoptRunning?) && Performs(d, pc, pc', op) && Applied(d, d', op)
    ensures Fact(d', u, pcu)
  {
  }

  lemma ChangedOwn(d: Data, d': Data, t: Tid, pc: Pc, pc': Pc, op: Op)
    requires GateOk(d.p) && Role(t, pc) && Fact(d, t, pc)
    requires (Special(op) || Gains(op)) && Performs(d, pc, pc', op) && Applied(d, d', op)
    ensures Fact(d', t, pc')
  {
    if op.Teared? { TearedOwn(d, d', t, pc, pc', op); }
    else if op.MarkStopped? { MarkedOwn(d, d', t, pc, pc', op); }
    else if op.OpenGate? || op.Complete? { OpenedOwn(d, d', t, pc, pc', op); }
    else if op.TryStart? { StartedOwn(d, d', t, pc, pc', op); }
    else if op.Insert? || op.AdoptRunning? { AdmittedOwn(d, d', t, pc, pc', op); }
    else { GainedFact(d, d', t, pc, pc', op); }
  }

  lemma ChangedOther(d: Data, d': Data, t: Tid, pc: Pc, pc': Pc, op: Op, u: Tid, pcu: Pc)
    requires t != u && Role(t, pc) && Role(u, pcu) && Exclusive(pc, pcu) && GateOk(d.p)
    requires Fact(d, t, pc) && Fact(d, u, pcu)
    requires pc == Serving(InitStatus) ==> pcu.Exited?
    requires pcu != Serving(InitStatus)
    requires Performs(d, pc, pc', op) && Applied(d, d', op)
    ensures Fact(d', u, pcu)
  {
    if op.Teared? { TearedOther(d, d', t, pc, pc', op, u, pcu); }
    else if op.MarkStopped? { MarkedOther(d, d', t, pc, pc', op, u, pcu); }
    else if op.OpenGate? || op.Complete? { OpenedOther(d, d', t, pc, pc', op, u, pcu); }
    else if op.TryStart? { StartedOther(d, d', t, pc, pc', op, u, pcu); }
    else if op.Insert? || op.AdoptRunning? { AdmittedOther(d, d', t, pc, pc', op, u, pcu); }
    else { SameKept(d, d', op); FactUnderSame(d, d', u, pcu); }
  }

  lemma NewbornFact(d: Data, d': Data, t: Tid, pc: Pc, pc': Pc, op: Op)
    requires Role(t, pc) && Fact(d, t, pc) && WakeOk(d) && GateOk(d'.p)
    requires Performs(d, pc, pc', op) && Applied(d, d', op) && Spawned(d, op).Some?
    ensures var (u, pcu) := Spawned(d, op).value; Fact(d', u, pcu)
  {
  }
}
