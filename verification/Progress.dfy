/** Deadlock freedom: the locks are always taken in one order, so every goroutine
    that waits for a lock waits, at most three goroutines on, for one that can run
    or for the reader of a closed session. */
module Progress {
  import opened Basics
  import opened Lifecycle
  import opened Control
  import opened Facts
  import opened Sessions
  import opened Invariant
  import opened StopSafety
  import P = ProxyState
  import S = SessionState

  // ---- Every operation that names what exists has an outcome ---------------------------------

  /** The sessions and timers that `op` needs exist. */
  predicate Enabled(d: Data, op: Op) {
    && (op.Enqueue? || op.Touch? || op.Forward? || op.Close? || op.FinishReader? || op.Expire? || op.FlushWrite? ==>
          op.sid in d.sess)
    && (op.Fire? ==> op.id in d.p.timers.alarms)
  }

  lemma ProxyOutcome(d: Data, op: Op) returns (p': P.State)
    requires op.Fire? ==> op.id in d.p.timers.alarms
    ensures ProxyApplied(d, p', op)
  {
    if op.AdoptRunning? { p' := P.AdoptRunning(d.p, d.o.probing); }
    else if op.TryStart? { p' := if P.CanStart(d.p, d.now) then P.BeginStartup(d.p) else d.p; }
    else if op.Enqueue? { p' := d.p.(buffer := P.Enqueue(d.p.buffer, op.sid, op.d, d.o)); }
    else if op.RemoveQueue? { p' := d.p.(buffer := P.RemoveQueue(d.p.buffer, op.sid)); }
    else if op.RemoveQueues? { p' := d.p.(buffer := P.RemoveQueues(d.p.buffer, DoneSessions(d))); }
    else if op.CancelTimer? { p' := d.p.(timers := P.NextGeneration(d.p.timers)); }
    else if op.ScheduleTimer? { p' := P.ScheduleAutoStop(d.p, d.now, d.o); }
    else if op.Fire? { p' := d.p.(timers := P.Fire(d.p.timers, op.id)); }
    else if op.Teared? {
      p' := if op.why.Shutdown? then P.Shutdown(d.p) else if op.why.Lost? then P.CloseGate(d.p)
            else P.FailStartup(d.p, op.why.gen, op.why.permanent, d.now, d.o.failureCooldown);
    }
    else if op.MarkStopped? { p' := P.MarkNotRunning(d.p); }
    else if op.ObserveRunning? || op.SetRunning? { p' := d.p.(running := true); }
    else if op.OpenGate? { p' := P.OpenGate(d.p); }
    else if op.Complete? { p' := P.CompleteStartup(d.p, op.gen); }
    else if op.ForgetTimer? { p' := d.p.(timers := P.Forget(d.p.timers, op.gen)); }
    else if op.RetryStop? { p' := P.RetryStop(d.p, op.gen, op.attempt, d.now, d.o); }
    else if op.EndCallback? { p' := d.p.(timers := d.p.timers.(waiting := d.p.timers.waiting - 1)); }
    else { p' := d.p; }
  }

  lemma SessionOutcome(d: Data, op: Op) returns (sess': map<Sid, S.State>)
    requires Enabled(d, op)
    ensures SessionsApplied(d, sess', op)
  {
    if op.Enqueue? {
      var y := S.Touch(d.sess[op.sid], d.now);
      sess' := d.sess[op.sid := if P.Accepts(d.p.buffer, op.sid, op.d, d.o) then S.Accept(y, op.d) else y];
    }
    else if op.Touch? { sess' := d.sess[op.sid := S.Touch(d.sess[op.sid], d.now)]; }
    else if op.Forward? { sess' := d.sess[op.sid := S.Write(S.Accept(d.sess[op.sid], op.d), op.d)]; }
    else if op.Close? || op.Expire? { sess' := d.sess[op.sid := S.Close(d.sess[op.sid])]; }
    else if op.FinishReader? { sess' := d.sess[op.sid := d.sess[op.sid].(done := true)]; }
    else if op.Insert? { sess' := d.sess[op.sid := S.New(op.key, d.now)]; }
    else if op.FlushWrite? { sess' := d.sess[op.sid := S.Write(S.Touch(d.sess[op.sid], d.now), op.d)]; }
    else { sess' := d.sess; }
  }

  lemma StoreOutcome(d: Data, op: Op) returns (store': map<Key, Sid>, removed': map<Sid, Remover>)
    ensures StoreApplied(d, store', removed', op)
  {
    store', removed' := d.store, d.h.removed;
    if op.Unstore? { store', removed' := d.store - {op.key}, d.h.removed[op.sid := op.who]; }
    else if op.Expire? { store', removed' := d.store - {op.key}, d.h.removed[op.sid := BySweep]; }
    else if op.Insert? { store' := d.store[op.key := op.sid]; }
    else if op.TakeAll? { store', removed' := map[], d.h.removed + map sid | sid in d.store.Values :: ByCloseAll; }
  }

  lemma HistoryOutcome(d: Data, op: Op, removed': map<Sid, Remover>) returns (h': History)
    requires op.Fire? ==> op.id in d.p.timers.alarms
    ensures h'.removed == removed'
    ensures TimerHistoryApplied(d, h', op) && WakeHistoryApplied(d, h', op) && LogApplied(d, h', op)
  {
    var h := d.h;
    var woken := op.AdoptRunning? || op.Detected? || op.ObserveRunning?;
    var lost := Fails(d, op) || (op.Teared? && op.why.Lost?) || (op.MarkStopped? && op.accepted);
    h' := History(
      h.arrived + (if op.Arrived? then 1 else 0),
      removed',
      if op.Fire? then h.callbacks[op.id := d.p.timers.alarms[op.id]]
      else if op.EndCallback? then h.callbacks - {op.id} else h.callbacks,
      if op.StopSent? then h.stops + [op.record] else h.stops,
      (h.stopAccepted && !op.OpenGate?) || op.StopAccepted?,
      h.starts + (if op.StartSent? then 1 else 0),
      if op.Observe? then h.observations + [op.seen] else h.observations,
      (h.wake && !lost) || woken,
      h.everWake || woken,
      if Fails(d, op) && op.why.permanent then h.permanentFailures + [d.now] else h.permanentFailures);
  }

  lemma Outcome(d: Data, op: Op) returns (d': Data)
    requires Enabled(d, op)
    ensures Applied(d, d', op)
  {
    var p' := ProxyOutcome(d, op);
    var sess' := SessionOutcome(d, op);
    var store', removed' := StoreOutcome(d, op);
    var h' := HistoryOutcome(d, op, removed');
    var now' := if op.Elapse? then d.now + op.span else d.now;
    d' := Data(d.o, now', d.cancelled || op.CancelContext?, p', store', sess', h');
  }

  // ---- What a goroutine waits for ------------------------------------------------------------

  predicate WantsAdmission(pc: Pc) {
    match pc
    case Admitting(at, _, _) => at.AdmLock?
    case Teardown(_, at) => at.TdAdmission?
    case Opening(at) => at.OpenAdmission?
    case AutoStop(at, _, _) => at.CbAdmission?
    case _ => false
  }

  predicate WantsWriter(pc: Pc) {
    match pc
    case Teardown(_, at) => at.TdForwarding?
    case Marking(_, locked) => !locked
    case Opening(at) => at.OpenForwarding?
    case _ => false
  }

  predicate WantsReader(pc: Pc) {
    pc.Forwarding? && pc.fwd.FwdLock?
  }

  /** The locks that the next step from `pc` needs are free. */
  predicate Clear(l: Locks, pc: Pc) {
    && (WantsAdmission(pc) ==> l.admission.None?)
    && (WantsWriter(pc) ==> l.writer.None? && !l.reader)
    && (WantsReader(pc) ==> l.writer.None?)
    && (NeedsMu(pc) ==> l.mu.None?)
    && (NeedsStoreMu(pc) ==> l.storeMu.None?)
  }

  lemma ClearIsFree(l: Locks, d: Data, t: Tid, pc: Pc, x: Input)
    requires Plan(d, t, pc, x).Go? && Clear(l, pc) && Role(t, pc)
    ensures Free(l, pc, Plan(d, t, pc, x).pc)
  {
    if t.Loop? { ClearLoopIsFree(l, d, t, pc, x); }
  }

  lemma ClearLoopIsFree(l: Locks, d: Data, t: Tid, pc: Pc, x: Input)
    requires t.Loop? && Plan(d, t, pc, x).Go? && Clear(l, pc) && Role(t, pc)
    ensures Free(l, pc, Plan(d, t, pc, x).pc)
  {
  }

  /** The goroutine waits for something other than a lock. */
  predicate Parked(d: Data, t: Tid, pc: Pc) {
    || (WaitsFor(pc).Some? && !IsDone(d, WaitsFor(pc).value) && !(pc.Admitting? && pc.admit.ReplQueue?))
    || (pc == Watching(Watch) && t.Watcher? && !IsDone(d, t.sid))
    || (pc == Serving(WaitTimers) && d.p.timers.waiting != 0)
    || pc == Serving(WaitGroup) || pc == Serving(Returned) || pc.Exited?
  }

  const SOME_INPUT := Input(true, false, Running, Healthy, false, [], [], 0, 0)

  /** An outcome of whatever the goroutine's next step asks of the outside world. */
  lemma Nudge(d: Data, t: Tid, pc: Pc) returns (x: Input)
    requires Role(t, pc) && NamesOk(d, pc) && !Parked(d, t, pc)
    requires forall sid | sid in d.p.buffer.queues :: sid in d.sess
    requires pc.AutoStop? && pc.stop.CbMu? ==> t.id in d.h.callbacks
    requires t.Watcher? && pc.Watching? ==> t.sid in d.sess
    ensures Plan(d, t, pc, x).Go? && Enabled(d, Plan(d, t, pc, x).op)
  {
    x := SOME_INPUT;
    if pc.Serving? || pc.Forwarding? || pc.Admitting? {
      x := x.(ok := false);
    } else if pc.Opening? && pc.open.Flush? && !Flushed(d, pc.open.pos) {
      var sid :| sid in d.p.buffer.queues && Position(pc.open.pos, sid) < |d.p.buffer.queues[sid].packets|;
      x := x.(sid := sid);
    } else if pc.Teardown? && pc.td.TdClose? && pc.td.todo != {} {
      var sid :| sid in pc.td.todo;
      x := x.(sid := sid);
    } else if pc.Sweeping? { x := NudgeSweep(d, pc); }
  }

  lemma NudgeSweep(d: Data, pc: Pc) returns (x: Input)
    requires pc.Sweeping? && NamesOk(d, pc) && !Parked(d, Sweeper, pc)
    ensures Plan(d, Sweeper, pc, x).Go? && Enabled(d, Plan(d, Sweeper, pc, x).op)
  {
    x := SOME_INPUT;
    if pc.sweep.Refresh? && pc.sweep.pending != {} {
      var sid :| sid in pc.sweep.pending;
      x := x.(sid := sid);
    } else if pc.sweep.Expiring? { x := x.(ok := false); }
    else if pc.sweep.ExpClose? && pc.sweep.todo != {} {
      var sid :| sid in pc.sweep.todo;
      x := x.(sid := sid);
    }
  }

  ghost predicate CanStep(s: State, t: Tid) {
    exists x, s' :: ThreadStep(s, s', t, x)
  }

  lemma Runnable(s: State, t: Tid, x: Input)
    requires t in s.threads && Role(t, s.threads[t]) && Clear(s.l, s.threads[t])
    requires var m := Plan(s.d, t, s.threads[t], x); m.Go? && Enabled(s.d, m.op)
    requires s.threads[t] != Serving(WaitGroup)
    ensures CanStep(s, t)
  {
    var m := Plan(s.d, t, s.threads[t], x);
    var d' := Outcome(s.d, m.op);
    ClearIsFree(s.l, s.d, t, s.threads[t], x);
    var s' := State(d', Spawn(s.d, s.threads, m.op)[t := m.pc], LocksAfter(s.l, t, s.threads[t], m.pc));
    assert ThreadStep(s, s', t, x);
  }

  lemma ClearRuns(s: State, t: Tid)
    requires Inv(s) && StopInv(s) && t in s.threads && Clear(s.l, s.threads[t]) && !Parked(s.d, t, s.threads[t])
    ensures CanStep(s, t)
  {
    assert At(s, t);
    SessionsKnown(s);
    if t.Callback? { assert StopAt(s, t.id); }
    if t.Watcher? { assert SessionAt(s, t.sid); }
    var x := Nudge(s.d, t, s.threads[t]);
    Runnable(s, t, x);
  }

  // ---- Chains of waiting goroutines --------------------------------------------------------

  /** `t` waits for the reader of a session that is closed, which has not exited and can. */
  ghost predicate ReaderExits(s: State, t: Tid) {
    && t in s.threads && WaitsFor(s.threads[t]).Some? && !IsDone(s.d, WaitsFor(s.threads[t]).value)
    && exists s' :: OutsideStep(s, s', FinishReader(WaitsFor(s.threads[t]).value))
  }

  /** `t` waits for a lock that `u` owns. */
  predicate WaitsOn(s: State, t: Tid, u: Tid) {
    && t in s.threads && u in s.threads && t != u
    && var pc, pcu := s.threads[t], s.threads[u];
    || (WantsAdmission(pc) && HoldsAdmission(pcu))
    || (WantsWriter(pc) && (HoldsWriter(pcu) || HoldsReader(pcu)))
    || (WantsReader(pc) && HoldsWriter(pcu))
    || (NeedsMu(pc) && HoldsMu(pcu))
    || (NeedsStoreMu(pc) && HoldsStoreMu(pcu))
  }

  /** At most `n` goroutines on, the chain that `t` waits in can move. */
  ghost predicate Unblocks(s: State, t: Tid, n: nat)
    decreases n
  {
    || CanStep(s, t)
    || ReaderExits(s, t)
    || (n > 0 && exists u :: WaitsOn(s, t, u) && Unblocks(s, u, n - 1))
  }

  /** The goroutine has ended, or waits for no lock and no closed session: a watcher
      of an open session, and the packet loop's two waits at the end of `Serve`. */
  predicate Resting(d: Data, t: Tid, pc: Pc) {
    Parked(d, t, pc) && WaitsFor(pc).None?
  }

  lemma ClosedReaderExits(s: State, t: Tid)
    requires Inv(s) && t in s.threads && WaitsFor(s.threads[t]).Some?
    requires !IsDone(s.d, WaitsFor(s.threads[t]).value)
    ensures ReaderExits(s, t)
  {
    assert At(s, t);
    var sid := WaitsFor(s.threads[t]).value;
    var d' := Outcome(s.d, FinishReader(sid));
    assert OutsideStep(s, State(d', s.threads, s.l), FinishReader(sid));
  }

  /** Where every wanted lock is free the goroutine moves, or rests. */
  lemma FreeMoves(s: State, t: Tid, n: nat)
    requires Inv(s) && StopInv(s) && t in s.threads && Clear(s.l, s.threads[t]) && !Resting(s.d, t, s.threads[t])
    ensures Unblocks(s, t, n)
  {
    if Parked(s.d, t, s.threads[t]) { ClosedReaderExits(s, t); } else { ClearRuns(s, t); }
  }

  lemma OwnerHolds(s: State, u: Tid)
    requires Inv(s)
    ensures s.l.admission == Some(u) ==> u in s.threads && HoldsAdmission(s.threads[u])
    ensures s.l.writer == Some(u) ==> u in s.threads && HoldsWriter(s.threads[u])
    ensures s.l.mu == Some(u) ==> u in s.threads && HoldsMu(s.threads[u])
    ensures s.l.storeMu == Some(u) ==> u in s.threads && HoldsStoreMu(s.threads[u])
  {
    assert At(s, u);
  }

  /** A goroutine inside `mu` or `store.mu` runs. */
  lemma InnermostMoves(s: State, t: Tid)
    requires Inv(s) && StopInv(s) && t in s.threads && (HoldsMu(s.threads[t]) || HoldsStoreMu(s.threads[t]))
    ensures Unblocks(s, t, 0)
  {
    InnermostIsClear(s.l, s.d, t, s.threads[t]);
    FreeMoves(s, t, 0);
  }

  lemma InnermostIsClear(l: Locks, d: Data, t: Tid, pc: Pc)
    requires HoldsMu(pc) || HoldsStoreMu(pc)
    ensures Clear(l, pc) && !Parked(d, t, pc)
  {
  }

  /** A goroutine that waits for nothing but an innermost lock. */
  lemma InnerWaits(s: State, t: Tid, n: nat)
    requires Inv(s) && StopInv(s) && t in s.threads && !Resting(s.d, t, s.threads[t]) && n > 0
    requires var pc := s.threads[t];
      && (WantsAdmission(pc) ==> s.l.admission.None?)
      && (WantsWriter(pc) ==> s.l.writer.None? && !s.l.reader)
      && (WantsReader(pc) ==> s.l.writer.None?)
    ensures Unblocks(s, t, n)
  {
    var pc := s.threads[t];
    assert At(s, t);
    if Clear(s.l, pc) { FreeMoves(s, t, n); }
    else {
      var u := if NeedsMu(pc) && s.l.mu.Some? then s.l.mu.value else s.l.storeMu.value;
      OwnerHolds(s, u);
      InnermostMoves(s, u);
      Deeper(s, u, 0, n - 1);
      assert WaitsOn(s, t, u);
    }
  }

  lemma {:induction false} Deeper(s: State, t: Tid, m: nat, n: nat)
    requires Unblocks(s, t, m) && m <= n
    ensures Unblocks(s, t, n)
    decreases n
  {
    if !CanStep(s, t) && !ReaderExits(s, t) {
      var u :| WaitsOn(s, t, u) && Unblocks(s, u, m - 1);
      Deeper(s, u, m - 1, n - 1);
    }
  }

  /** A goroutine that owns `forwardingMu`, for reading or writing. */
  lemma ForwardingMoves(s: State, t: Tid)
    requires Inv(s) && StopInv(s) && t in s.threads && (HoldsWriter(s.threads[t]) || HoldsReader(s.threads[t]))
    ensures Unblocks(s, t, 1)
  {
    assert At(s, t);
    InnerWaits(s, t, 1);
  }

  /** A goroutine that waits for nothing outside `forwardingMu`. */
  lemma MiddleWaits(s: State, t: Tid, n: nat)
    requires Inv(s) && StopInv(s) && t in s.threads && !Resting(s.d, t, s.threads[t]) && n > 1
    requires WantsAdmission(s.threads[t]) ==> s.l.admission.None?
    ensures Unblocks(s, t, n)
  {
    var pc := s.threads[t];
    assert At(s, t) && At(s, Loop);
    if (WantsWriter(pc) && (s.l.writer.Some? || s.l.reader)) || (WantsReader(pc) && s.l.writer.Some?) {
      var u := if s.l.writer.Some? then s.l.writer.value else Loop;
      OwnerHolds(s, u);
      ForwardingMoves(s, u);
      Deeper(s, u, 1, n - 1);
      assert WaitsOn(s, t, u);
    } else { InnerWaits(s, t, n); }
  }

  /** A goroutine that owns `admissionMu`. */
  lemma AdmissionMoves(s: State, t: Tid)
    requires Inv(s) && StopInv(s) && t in s.threads && HoldsAdmission(s.threads[t])
    ensures Unblocks(s, t, 2)
  {
    MiddleWaits(s, t, 2);
  }

  /** No goroutine is ever stuck: at most three goroutines on, its chain can move. */
  lemma NoDeadlock(s: State, t: Tid)
    requires Inv(s) && StopInv(s) && t in s.threads && !Resting(s.d, t, s.threads[t])
    ensures Unblocks(s, t, 3)
  {
    if WantsAdmission(s.threads[t]) && s.l.admission.Some? {
      var u := s.l.admission.value;
      OwnerHolds(s, u);
      AdmissionMoves(s, u);
      assert At(s, t);
      assert WaitsOn(s, t, u);
    } else { MiddleWaits(s, t, 3); }
  }
}
