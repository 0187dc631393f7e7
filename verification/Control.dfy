/** Which goroutine may be where, which locks it then holds, and that spawning a
    goroutine never reuses an identity. */
module Control {
  import opened Basics
  import opened Lifecycle
  import P = ProxyState
  import S = SessionState
  import E = Effects

  /** The program counters each kind of goroutine can have. */
  predicate Role(t: Tid, pc: Pc) {
    match pc
    case Serving(_) => t.Loop?
    case Forwarding(_, _, _, _, _) => t.Loop?
    case Admitting(_, _, _) => t.Loop?
    case Teardown(why, _) =>
      (match why
       case Shutdown => t.Loop?
       case Failed(gen, _) => t == Startup(gen)
       case Lost(_) => t.Monitor?)
    case Marking(after, _) => if after.ToForget? then t.Callback? else t.Startup?
    case Ensuring(_) => t.Startup?
    case Opening(_) => t.Startup?
    case Monitoring(_) => t.Monitor?
    case Sweeping(_) => t.Sweeper?
    case Watching(_) => t.Watcher?
    case AutoStop(_, _, _) => t.Callback?
    case Exited => !t.Loop?
  }

  lemma RoleKept(d: Data, t: Tid, pc: Pc, x: Input)
    requires Role(t, pc) && Plan(d, t, pc, x).Go?
    ensures Role(t, Plan(d, t, pc, x).pc)
  {
    if t.Loop? { LoopRole(d, t, pc, x); } else { OtherRole(d, t, pc, x); }
  }

  lemma LoopRole(d: Data, t: Tid, pc: Pc, x: Input)
    requires t.Loop? && Role(t, pc) && Plan(d, t, pc, x).Go?
    ensures Role(t, Plan(d, t, pc, x).pc)
  {
  }

  lemma OtherRole(d: Data, t: Tid, pc: Pc, x: Input)
    requires !t.Loop? && Role(t, pc) && Plan(d, t, pc, x).Go?
    ensures Role(t, Plan(d, t, pc, x).pc)
  {
  }

  /** A goroutine owns exactly the locks that its program counter says; one that
      was not spawned owns none. */
  predicate LocksAt(s: State, t: Tid) {
    if t in s.threads then
      var pc := s.threads[t];
      && Role(t, pc)
      && (HoldsAdmission(pc) <==> s.l.admission == Some(t))
      && (HoldsWriter(pc) <==> s.l.writer == Some(t))
      && (HoldsMu(pc) <==> s.l.mu == Some(t))
      && (HoldsStoreMu(pc) <==> s.l.storeMu == Some(t))
    else
      s.l.admission != Some(t) && s.l.writer != Some(t) && s.l.mu != Some(t) && s.l.storeMu != Some(t)
  }

  predicate ReaderOk(s: State) {
    && Loop in s.threads
    && (s.l.reader <==> HoldsReader(s.threads[Loop]))
    && !(s.l.reader && s.l.writer.Some?)
  }

  predicate SpawnsFresh(s: State, op: Op) {
    && (Spawned(s.d, op).Some? ==> Spawned(s.d, op).value.0 !in s.threads)
    && (op.Launch? ==> Monitor !in s.threads)
  }

  /** At most one goroutine owns each lock. */
  predicate Exclusive(pc: Pc, other: Pc) {
    && !(HoldsAdmission(pc) && HoldsAdmission(other))
    && !(HoldsWriter(pc) && HoldsWriter(other))
    && !(HoldsReader(pc) && HoldsWriter(other))
    && !(HoldsWriter(pc) && HoldsReader(other))
    && !(HoldsMu(pc) && HoldsMu(other))
  }

  lemma OwnersExclusive(s: State, t: Tid, u: Tid)
    requires ReaderOk(s) && LocksAt(s, t) && LocksAt(s, u) && t != u && t in s.threads && u in s.threads
    ensures Exclusive(s.threads[t], s.threads[u])
  {
  }

  lemma ReaderKept(s: State, s': State, t: Tid, m: Move)
    requires ReaderOk(s) && LocksAt(s, t) && LocksAt(s, Loop)
    requires t in s.threads && m.Go? && Role(t, m.pc) && SpawnsFresh(s, m.op) && Moved(s, s', t, m)
    ensures ReaderOk(s')
  {
  }

  lemma LocksKept(s: State, s': State, t: Tid, m: Move, u: Tid)
    requires LocksAt(s, t) && LocksAt(s, u)
    requires t in s.threads && m.Go? && Role(t, m.pc) && SpawnsFresh(s, m.op) && Moved(s, s', t, m)
    ensures LocksAt(s', u)
  {
  }

  // ---- Which steps perform an operation --------------------------------------

  /** The step from `pc` to `pc'` that can perform `op`, for the operations that
      change what other goroutines rely on. */
  predicate Performs(d: Data, pc: Pc, pc': Pc, op: Op) {
    match op
    case AdoptRunning => pc == Serving(InitStatus) && (pc' == Serving(InitStart) || pc' == Serving(InitLaunch))
    case Launch => pc == Serving(InitLaunch) && pc' == Serving(Idle)
    case TryStart =>
      || (pc == Serving(InitStart) && pc' == Serving(InitLaunch))
      || (pc.Forwarding? && pc.fwd.FwdStart? && pc' == pc.(fwd := FwdDone(true)))
      || (pc.Admitting? && pc.admit.AdmStart? && pc' == pc.(admit := AdmLeave))
      || (pc == Opening(Retrigger) && pc' == Exited)
    case Enqueue(sid, g) =>
      && pc.Forwarding? && pc.fwd.FwdCheck? && pc.sid == sid && pc.d == g && !d.p.ready
      && pc' == pc.(fwd := FwdStart)
      && (sid in d.sess ==> !d.sess[sid].closed)
    case Forward(sid, g) =>
      pc.Forwarding? && pc.fwd.FwdWrite? && pc.sid == sid && pc.d == g && pc' == pc.(fwd := FwdDone(true))
    case Insert(key, sid) =>
      && pc.Admitting? && pc.admit.Create? && pc.key == key && sid !in d.sess && key !in d.store
      && |d.store| < d.o.maxSessions
      && pc' == pc.(admit := CancelStop(sid, pc.admit.ready))
    case CancelTimer(sid) =>
      && pc.Admitting? && pc.admit.CancelStop? && pc.admit.sid == sid
      && pc' == Forwarding(FwdLock, pc.key, sid, pc.d, Final(pc.admit.ready))
    case TakeAll => pc.Teardown? && pc.td.TdTake? && pc' == pc.(td := TdClose(d.store.Values))
    case Teared(why) =>
      && pc == Teardown(why, TdMu) && pc' == Teardown(why, TdTake)
      && (why.Lost? ==> d.p.ready && d.p.readyGen == why.readyGen)
    case MarkStopped(accepted) =>
      && pc.Marking? && pc.locked && accepted == pc.after.ToForget?
      && pc' == (match pc.after
                 case ToStart => Ensuring(SendStart)
                 case ToTick(sent) => Ensuring(TickWait(sent))
                 case ToForget(gen, attempt) => AutoStop(CbForget, gen, attempt))
    case SetRunning => pc == Opening(OpenMu) && pc' == Opening(Flush(map[]))
    case OpenGate => pc.Opening? && pc.open.Flush? && Flushed(d, pc.open.pos) && pc' == Opening(OpenLen)
    case FlushWrite(sid, g) =>
      && pc.Opening? && pc.open.Flush? && sid in d.p.buffer.queues && sid in d.sess && !d.sess[sid].closed
      && var k := Position(pc.open.pos, sid);
      && k < |d.p.buffer.queues[sid].packets| && g == d.p.buffer.queues[sid].packets[k]
      && pc' == Opening(Flush(pc.open.pos[sid := k + 1]))
    case Complete(gen) =>
      && pc == Opening(Finish)
      && pc' == if P.WantsRetrigger(d.p, gen, d.now) then Opening(Retrigger) else Exited
    case ObserveRunning => pc == Ensuring(Adopt) && (pc' == Ensuring(AwaitReady) || pc' == Ensuring(Settle))
    case Detected =>
      pc.Admitting? && pc.admit.Decide? && pc' == pc.(admit := Create(false)) && d.p.blockedUntil <= d.now
    case StartSent => pc == Ensuring(SendStart) && pc' == Ensuring(StartInFlight)
    case Unstore(key, sid, who) =>
      && Stored(d, key, sid)
      && if who.ByReplacement? then
           && pc.Admitting? && pc.admit == ReplRemove(sid) && pc.key == key
           && pc' == pc.(admit := ReplClose(sid))
         else pc == Watching(WatchRemove) && who.ByWatcher? && pc'.Watching? && pc'.watch.WatchQueue?
    case Expire(key, sid) =>
      && pc.Sweeping? && pc.sweep.Expiring? && Stored(d, key, sid)
      && sid in d.sess && S.Expirable(d.sess[sid], pc.sweep.tick, d.o.idleTimeout)
      && pc' == Sweeping(Expiring(pc.sweep.tick, pc.sweep.expired + {sid}))
    case RemoveQueue(sid) =>
      || (pc.Admitting? && pc.admit == ReplQueue(sid) && pc' == pc.(admit := Decide))
      || (pc.Watching? && pc.watch.WatchQueue? && (pc' == Exited || pc' == Watching(WatchSchedule)))
    case RemoveQueues =>
      && pc.Sweeping? && pc.sweep.SweepQueues?
      && pc'.Sweeping? && (pc'.sweep.SweepTick? || pc'.sweep.SweepSchedule?)
    case _ => true
  }

  lemma Performed(d: Data, t: Tid, pc: Pc, x: Input)
    requires Plan(d, t, pc, x).Go?
    ensures Performs(d, pc, Plan(d, t, pc, x).pc, Plan(d, t, pc, x).op)
  {
    if pc.Serving? || pc.Forwarding? || pc.Admitting? { LoopPerformed(d, t, pc, x); }
    else { OtherPerformed(d, t, pc, x); }
  }

  lemma LoopPerformed(d: Data, t: Tid, pc: Pc, x: Input)
    requires Plan(d, t, pc, x).Go? && (pc.Serving? || pc.Forwarding? || pc.Admitting?)
    ensures Performs(d, pc, Plan(d, t, pc, x).pc, Plan(d, t, pc, x).op)
  {
  }

  lemma OtherPerformed(d: Data, t: Tid, pc: Pc, x: Input)
    requires Plan(d, t, pc, x).Go? && !(pc.Serving? || pc.Forwarding? || pc.Admitting?)
    ensures Performs(d, pc, Plan(d, t, pc, x).pc, Plan(d, t, pc, x).op)
  {
    if t.Startup? { StartupPerformed(d, t, pc, x); } else { BackgroundPerformed(d, t, pc, x); }
  }

  lemma StartupPerformed(d: Data, t: Tid, pc: Pc, x: Input)
    requires t.Startup? && Plan(d, t, pc, x).Go? && !(pc.Serving? || pc.Forwarding? || pc.Admitting?)
    ensures Performs(d, pc, Plan(d, t, pc, x).pc, Plan(d, t, pc, x).op)
  {
    if pc.Ensuring? || pc.Opening? { EnsuringPerformed(d, t, pc, x); }
  }

  lemma EnsuringPerformed(d: Data, t: Tid, pc: Pc, x: Input)
    requires Plan(d, t, pc, x).Go? && (pc.Ensuring? || pc.Opening?)
    ensures Performs(d, pc, Plan(d, t, pc, x).pc, Plan(d, t, pc, x).op)
  {
  }

  lemma BackgroundPerformed(d: Data, t: Tid, pc: Pc, x: Input)
    requires !t.Startup? && Plan(d, t, pc, x).Go? && !(pc.Serving? || pc.Forwarding? || pc.Admitting?)
    ensures Performs(d, pc, Plan(d, t, pc, x).pc, Plan(d, t, pc, x).op)
  {
  }

  // ---- Spawning ----------------------------------------------------------------

  predicate BornAt(pc: Pc, sid: Sid) {
    pc.Admitting? && pc.admit.CancelStop? && pc.admit.sid == sid
  }

  /** The identities of goroutines still to be spawned are unused. */
  predicate FreshAt(s: State, u: Tid)
    requires Loop in s.threads
  {
    var loop := s.threads[Loop];
    && (loop == Serving(InitStatus) && u in s.threads ==> u == Loop)
    && match u
       case Startup(gen) => u in s.threads ==> gen <= s.d.p.startupGen
       case Callback(id) =>
         && (id in s.d.p.timers.alarms ==> id < s.d.p.timers.next)
         && (u in s.threads ==> id < s.d.p.timers.next && id !in s.d.p.timers.alarms)
       case Watcher(sid) => u in s.threads ==> sid in s.d.sess && !BornAt(loop, sid)
       case _ => u in s.threads && (loop == Serving(InitStart) || loop == Serving(InitLaunch)) ==> u == Loop
  }

  /** The order of the initial steps, and that only an insertion leads to a
      session without a watcher. */
  predicate Ordered(pc: Pc, pc': Pc, op: Op) {
    && pc' != Serving(InitStatus)
    && (pc' == Serving(InitStart) ==> pc == Serving(InitStatus))
    && (pc' == Serving(InitLaunch) ==> pc == Serving(InitStatus) || pc == Serving(InitStart))
    && (pc'.Admitting? && pc'.admit.CancelStop? ==> op.Insert? && op.sid == pc'.admit.sid)
    && (pc.Admitting? && pc.admit.CancelStop? ==> op.CancelTimer? && op.sid == pc.admit.sid)
  }

  lemma StepsOrdered(d: Data, t: Tid, pc: Pc, x: Input)
    requires Plan(d, t, pc, x).Go?
    ensures Ordered(pc, Plan(d, t, pc, x).pc, Plan(d, t, pc, x).op)
  {
  }

  /** The part of the data that `FreshAt` reads, across an operation. */
  predicate FreshData(d: Data, d': Data, op: Op, u: Tid) {
    && d.p.startupGen + (if op.TryStart? && P.CanStart(d.p, d.now) then 1 else 0) <= d'.p.startupGen
    && (u.Callback? ==> E.Grows(d.p.timers, d'.p.timers, u.id))
    && (op.Fire? ==> op.id !in d'.p.timers.alarms)
    && (u.Watcher? && u.sid in d.sess ==> u.sid in d'.sess)
  }

  lemma FreshKept(s: State, s': State, t: Tid, m: Move, u: Tid)
    requires Loop in s.threads && t in s.threads && m.Go? && FreshAt(s, t) && FreshAt(s, u)
    requires Role(t, s.threads[t]) && Role(t, m.pc) && Ordered(s.threads[t], m.pc, m.op)
    requires Performs(s.d, s.threads[t], m.pc, m.op) && !m.op.Fire? && Moved(s, s', t, m)
    requires m.op.CancelTimer? ==> m.op.sid in s.d.sess
    requires m.op.Launch? ==> t == Loop
    requires FreshData(s.d, s'.d, m.op, u)
    ensures Loop in s'.threads && FreshAt(s', u)
  {
  }

  lemma FreshOutside(s: State, s': State, op: Op, u: Tid)
    requires Loop in s.threads && FreshAt(s, u) && Spontaneous(s.d, op)
    requires s.threads[Loop] == Serving(InitStatus) ==> !op.Fire?
    requires s'.threads == Spawn(s.d, s.threads, op)
    requires FreshData(s.d, s'.d, op, u)
    requires op.Fire? ==> op.id < s'.d.p.timers.next
    ensures Loop in s'.threads && FreshAt(s', u)
  {
  }

  lemma SpawnIsFresh(s: State, t: Tid, m: Move)
    requires Loop in s.threads && t in s.threads && m.Go?
    requires Performs(s.d, s.threads[t], m.pc, m.op) && !m.op.Fire? && Role(t, s.threads[t])
    requires FreshAt(s, Sweeper) && FreshAt(s, Monitor) && FreshAt(s, Startup(s.d.p.startupGen + 1))
    requires m.op.CancelTimer? ==> FreshAt(s, Watcher(m.op.sid))
    ensures SpawnsFresh(s, m.op)
  {
  }
}
