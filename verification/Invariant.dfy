/** The inductive invariant of the lifecycle: every step keeps it. */
module Invariant {
  import opened Basics
  import opened Lifecycle
  import opened Control
  import opened Facts
  import opened Sessions
  import E = Effects

  function OwnerPc(s: State): Pc {
    if s.l.admission.Some? && s.l.admission.value in s.threads then s.threads[s.l.admission.value] else Exited
  }

  function PcOf(s: State, t: Tid): Option<Pc> {
    if t in s.threads then Some(s.threads[t]) else None
  }

  function ViewOf(s: State, sid: Sid): View
    requires Loop in s.threads
  {
    View(s.d, OwnerPc(s), s.threads[Loop], PcOf(s, Watcher(sid)))
  }

  predicate At(s: State, u: Tid)
    requires Loop in s.threads
  {
    && LocksAt(s, u) && FreshAt(s, u)
    && (u in s.threads ==> Fact(s.d, u, s.threads[u]) && NamesOk(s.d, s.threads[u]))
  }

  predicate SessionAt(s: State, sid: Sid)
    requires Loop in s.threads
  {
    SessionOk(ViewOf(s, sid), sid)
  }

  ghost predicate Inv(s: State) {
    && ReaderOk(s) && DataOk(s.d) && StoreOk(s.d)
    && (forall u {:trigger At(s, u)} :: At(s, u))
    && (forall sid {:trigger SessionAt(s, sid)} :: SessionAt(s, sid))
  }

  lemma InitInv(s: State)
    requires Init(s)
    ensures Inv(s)
  {
  }

  /** A step of `t` as it appears to the invariants of one session. */
  lemma ViewSteps(s: State, s': State, t: Tid, m: Move, sid: Sid)
    requires ReaderOk(s) && t in s.threads && m.Go? && LocksAt(s, t) && Role(t, m.pc)
    requires s.l.admission.Some? ==> s.l.admission.value in s.threads
    requires Moved(s, s', t, m) && SpawnsFresh(s, m.op) && !m.op.Fire? && (m.op.Launch? ==> t == Loop)
    ensures Loop in s'.threads && ViewStep(ViewOf(s, sid), ViewOf(s', sid), t, s.threads[t], m.pc, m.op, sid)
  {
  }

  /** A step of `t` with everything that is known of it without its plan. */
  ghost predicate Stepping(s: State, s': State, t: Tid, m: Move) {
    && Loop in s.threads && t in s.threads && m.Go?
    && Moved(s, s', t, m) && Applied(s.d, s'.d, m.op)
    && Performs(s.d, s.threads[t], m.pc, m.op) && Ordered(s.threads[t], m.pc, m.op)
    && Role(t, s.threads[t]) && Role(t, m.pc) && SpawnsFresh(s, m.op) && !m.op.Fire?
  }

  lemma Steps(s: State, s': State, t: Tid, x: Input)
    requires Inv(s) && ThreadStep(s, s', t, x)
    ensures Stepping(s, s', t, Plan(s.d, t, s.threads[t], x))
  {
    var pc := s.threads[t];
    var m := Plan(s.d, t, pc, x);
    assert At(s, t) && At(s, Sweeper) && At(s, Monitor) && At(s, Startup(s.d.p.startupGen + 1));
    Performed(s.d, t, pc, x);
    StepsOrdered(s.d, t, pc, x);
    RoleKept(s.d, t, pc, x);
    NeverFires(s.d, t, pc, x);
    if m.op.CancelTimer? { assert At(s, Watcher(m.op.sid)); }
    SpawnIsFresh(s, t, m);
  }

  lemma NeverFires(d: Data, t: Tid, pc: Pc, x: Input)
    requires Plan(d, t, pc, x).Go?
    ensures !Plan(d, t, pc, x).op.Fire?
  {
  }

  lemma DataKept(s: State, s': State, t: Tid, x: Input)
    requires Inv(s) && ThreadStep(s, s', t, x)
    ensures DataOk(s'.d) && StoreOk(s'.d)
  {
    var pc := s.threads[t];
    var m := Plan(s.d, t, pc, x);
    assert At(s, t);
    Steps(s, s', t, x);
    Guarded(s.d, t, pc, x);
    GateKept(s.d, s'.d, m.op);
    WakeKept(s.d, s'.d, m.op);
    RateKept(s.d, s'.d, m.op);
    StoreOkKept(s.d, s'.d, pc, m.pc, m.op);
  }

  /** Nothing is queued during the cooldown: no session is open outside a teardown
      that excludes the packet loop. */
  lemma EnqueueOutsideCooldown(s: State, sid: Sid)
    requires Inv(s) && HoldsReader(s.threads[Loop]) && sid in s.d.sess && !s.d.sess[sid].closed
    ensures s.d.p.blockedUntil <= s.d.now
  {
    assert SessionAt(s, sid);
    if s.l.admission.Some? { assert At(s, s.l.admission.value); }
  }

  lemma OwnFact(s: State, s': State, t: Tid, x: Input)
    requires Inv(s) && ThreadStep(s, s', t, x)
    ensures Fact(s'.d, t, Plan(s.d, t, s.threads[t], x).pc)
  {
    var pc := s.threads[t];
    var m := Plan(s.d, t, pc, x);
    assert At(s, t);
    Steps(s, s', t, x);
    if m.op.Enqueue? && m.op.sid in s.d.sess { EnqueueOutsideCooldown(s, m.op.sid); }
    MovedFact(s.d, s'.d, t, pc, x);
  }

  lemma MovedFact(d: Data, d': Data, t: Tid, pc: Pc, x: Input)
    requires DataOk(d) && StoreOk(d) && Role(t, pc) && Fact(d, t, pc) && Plan(d, t, pc, x).Go?
    requires Performs(d, pc, Plan(d, t, pc, x).pc, Plan(d, t, pc, x).op) && Applied(d, d', Plan(d, t, pc, x).op)
    requires Plan(d, t, pc, x).op.Enqueue? ==> d.p.blockedUntil <= d.now
    ensures Fact(d', t, Plan(d, t, pc, x).pc)
  {
    var m := Plan(d, t, pc, x);
    if Special(m.op) || Gains(m.op) { ChangedOwn(d, d', t, pc, m.pc, m.op); }
    else {
      PlannedFact(d, t, pc, x);
      LaterServing(d, t, pc, x);
      FactFrame(d, d', t, m.pc, m.op);
    }
  }

  lemma FactFrame(d: Data, d': Data, t: Tid, pc: Pc, op: Op)
    requires Fact(d, t, pc) && pc != Serving(InitStatus) && !Special(op) && Applied(d, d', op)
    ensures Fact(d', t, pc)
  {
    SameKept(d, d', op);
    FactUnderSame(d, d', t, pc);
  }

  lemma LaterServing(d: Data, t: Tid, pc: Pc, x: Input)
    requires Plan(d, t, pc, x).Go?
    ensures Plan(d, t, pc, x).pc != Serving(InitStatus)
  {
    StepsOrdered(d, t, pc, x);
  }

  /** Where another goroutine is after a step of `t`: where it was, or newly spawned. */
  lemma OtherPc(s: State, s': State, t: Tid, m: Move, u: Tid)
    requires Stepping(s, s', t, m) && u != t && u in s'.threads
    ensures if u in s.threads then s'.threads[u] == s.threads[u]
            else
              || Spawned(s.d, m.op) == Some((u, s'.threads[u]))
              || (u == Monitor && s'.threads[u] == Monitoring(MonTick(NO_FAILURES)))
  {
  }

  lemma OtherFact(s: State, s': State, t: Tid, m: Move, u: Tid)
    requires Inv(s) && DataOk(s'.d) && Stepping(s, s', t, m) && u != t && u in s'.threads
    ensures Fact(s'.d, u, s'.threads[u])
  {
    assert At(s, t) && At(s, u);
    OtherPc(s, s', t, m, u);
    if u in s.threads {
      OwnersExclusive(s, t, u);
      InitIsAlone(s, t, u);
      ChangedOther(s.d, s'.d, t, s.threads[t], m.pc, m.op, u, s.threads[u]);
    } else { NewFact(s.d, s'.d, t, s.threads[t], m.pc, m.op, u, s'.threads[u]); }
  }

  /** While the packet loop is at its first step there is no other goroutine. */
  lemma InitIsAlone(s: State, t: Tid, u: Tid)
    requires Loop in s.threads && t in s.threads && u in s.threads && t != u && FreshAt(s, t) && FreshAt(s, u)
    requires Role(t, s.threads[t]) && Role(u, s.threads[u])
    ensures s.threads[t] != Serving(InitStatus) && s.threads[u] != Serving(InitStatus)
  {
  }

  lemma NewFact(d: Data, d': Data, t: Tid, pc: Pc, pc': Pc, op: Op, u: Tid, pcu: Pc)
    requires Role(t, pc) && Fact(d, t, pc) && WakeOk(d) && GateOk(d'.p)
    requires Performs(d, pc, pc', op) && Applied(d, d', op)
    requires Spawned(d, op) == Some((u, pcu)) || (pcu == Monitoring(MonTick(NO_FAILURES)) && u == Monitor)
    ensures Fact(d', u, pcu)
  {
    if Spawned(d, op) == Some((u, pcu)) { NewbornFact(d, d', t, pc, pc', op); }
  }

  /** A session the packet loop finds gone from the store, while it holds
      `admissionMu` to replace it, is closed. */
  lemma ReplacedIsClosed(s: State)
    requires Inv(s) && s.threads[Loop].Admitting? && s.threads[Loop].admit.ReplRemove?
    requires !Stored(s.d, s.threads[Loop].key, s.threads[Loop].admit.sid)
    ensures Closed(s.d, s.threads[Loop].admit.sid)
  {
    assert At(s, Loop) && SessionAt(s, s.threads[Loop].admit.sid);
  }

  lemma SessionsKnown(s: State)
    requires Inv(s)
    ensures forall sid | sid in s.d.p.buffer.queues :: sid in s.d.sess
    ensures forall sid | sid in s.d.sess && s.d.sess[sid].done :: s.d.sess[sid].closed
  {
    forall sid | sid in s.d.p.buffer.queues ensures sid in s.d.sess { assert SessionAt(s, sid); }
    forall sid | sid in s.d.sess && s.d.sess[sid].done ensures s.d.sess[sid].closed { assert SessionAt(s, sid); }
  }

  lemma NamesKept(s: State, s': State, t: Tid, x: Input, u: Tid)
    requires Inv(s) && ThreadStep(s, s', t, x) && u in s'.threads
    ensures NamesOk(s'.d, s'.threads[u])
  {
    var m := Plan(s.d, t, s.threads[t], x);
    Steps(s, s', t, x);
    if u == t {
      NamesAreKnown(s, t);
      Persists(s.d, s'.d, s.threads[t], m.pc, m.op);
      NamesMoved(s.d, s'.d, t, s.threads[t], x);
    } else { OtherNames(s, s', t, m, u); }
  }

  lemma OtherNames(s: State, s': State, t: Tid, m: Move, u: Tid)
    requires Inv(s) && Stepping(s, s', t, m) && u != t && u in s'.threads
    ensures NamesOk(s'.d, s'.threads[u])
  {
    assert At(s, u);
    OtherPc(s, s', t, m, u);
    Persists(s.d, s'.d, s.threads[t], m.pc, m.op);
    if u in s.threads { NamesPersist(s.d, s'.d, s.threads[u]); }
    else { NewbornNames(s'.d, s.d, m.op, u, s'.threads[u]); }
  }

  lemma NewbornNames(d': Data, d: Data, op: Op, u: Tid, pcu: Pc)
    requires Spawned(d, op) == Some((u, pcu)) || pcu == Monitoring(MonTick(NO_FAILURES))
    ensures NamesOk(d', pcu)
  {
  }

  lemma NamesAreKnown(s: State, t: Tid)
    requires Inv(s) && t in s.threads
    ensures NamesKnown(s.d, s.threads[t])
  {
    var pc := s.threads[t];
    assert At(s, t);
    SessionsKnown(s);
    if pc.Admitting? && pc.admit.ReplRemove? && !Stored(s.d, pc.key, pc.admit.sid) { ReplacedIsClosed(s); }
  }

  lemma NamesMoved(d: Data, d': Data, t: Tid, pc: Pc, x: Input)
    requires NamesKnown(d, pc) && Plan(d, t, pc, x).Go? && Persist(d, d') && Applied(d, d', Plan(d, t, pc, x).op)
    ensures NamesOk(d', Plan(d, t, pc, x).pc)
  {
    var m := Plan(d, t, pc, x);
    if m.op.Insert? || m.op.Close? { NamesGained(d, d', t, pc, x); }
    else {
      NamesPlanned(d, t, pc, x);
      NamesPersist(d, d', m.pc);
    }
  }

  lemma AtKept(s: State, s': State, t: Tid, x: Input, u: Tid)
    requires Inv(s) && ThreadStep(s, s', t, x) && DataOk(s'.d)
    ensures Loop in s'.threads && At(s', u)
  {
    var pc := s.threads[t];
    var m := Plan(s.d, t, pc, x);
    assert At(s, t) && At(s, u);
    Steps(s, s', t, x);
    LocksKept(s, s', t, m, u);
    FreshDataKept(s, s', t, m, u);
    FreshKept(s, s', t, m, u);
    if u in s'.threads {
      NamesKept(s, s', t, x, u);
      if u == t { OwnFact(s, s', t, x); } else { OtherFact(s, s', t, m, u); }
    }
  }

  lemma FreshDataKept(s: State, s': State, t: Tid, m: Move, u: Tid)
    requires Inv(s) && Stepping(s, s', t, m)
    ensures FreshData(s.d, s'.d, m.op, u)
    ensures m.op.CancelTimer? ==> m.op.sid in s.d.sess
  {
    assert At(s, t);
    E.StartupFrame(s.d, s'.d, m.op);
    if u.Callback? { E.AlarmGrowth(s.d, s'.d, m.op, u.id); }
    if u.Watcher? { E.SessionChange(s.d, s'.d, m.op, u.sid); }
  }

  /** A planned step as the invariants of one session rely on it. */
  predicate SessionMove(d: Data, t: Tid, pc: Pc, pc': Pc, op: Op, sid: Sid) {
    && ClosingStep(pc, pc', op, sid) && AdmittedStep(d, pc, pc', op, sid)
    && (t == Watcher(sid) ==> WatchMove(d, sid, pc, pc', op))
    && (op.Unstore? && op.who.ByWatcher? ==> t == Watcher(op.sid))
    && !op.FinishReader?
  }

  lemma SessionMoves(d: Data, t: Tid, pc: Pc, x: Input, sid: Sid)
    requires Role(t, pc) && Plan(d, t, pc, x).Go?
    ensures SessionMove(d, t, pc, Plan(d, t, pc, x).pc, Plan(d, t, pc, x).op, sid)
  {
    ClosingSteps(d, t, pc, x, sid);
    AdmittedSteps(d, t, pc, x, sid);
    if t.Watcher? { WatchMoves(d, t.sid, pc, x); }
    NeverFinishes(d, t, pc, x);
    Performed(d, t, pc, x);
  }

  lemma SessionAtKept(s: State, s': State, t: Tid, x: Input, sid: Sid)
    requires Inv(s) && ThreadStep(s, s', t, x)
    ensures Loop in s'.threads && SessionAt(s', sid)
  {
    assert At(s, t);
    Steps(s, s', t, x);
    SessionMoves(s.d, t, s.threads[t], x, sid);
    if Plan(s.d, t, s.threads[t], x).op.RemoveQueue? { RemovedIsClosed(s, s', t, x); }
    SessionAtMoved(s, s', t, Plan(s.d, t, s.threads[t], x), sid);
  }

  lemma SessionAtMoved(s: State, s': State, t: Tid, m: Move, sid: Sid)
    requires Inv(s) && Stepping(s, s', t, m) && SessionMove(s.d, t, s.threads[t], m.pc, m.op, sid)
    requires m.op.RemoveQueue? ==> Closed(s.d, m.op.sid)
    ensures Loop in s'.threads && SessionAt(s', sid)
  {
    assert At(s, t) && SessionAt(s, sid);
    if s.l.admission.Some? { assert At(s, s.l.admission.value); }
    ViewSteps(s, s', t, m, sid);
    SessionKept(ViewOf(s, sid), ViewOf(s', sid), t, s.threads[t], m.pc, m.op, sid);
  }

  lemma NeverFinishes(d: Data, t: Tid, pc: Pc, x: Input)
    requires Plan(d, t, pc, x).Go?
    ensures !Plan(d, t, pc, x).op.FinishReader?
  {
  }

  lemma RemovedIsClosed(s: State, s': State, t: Tid, x: Input)
    requires Inv(s) && ThreadStep(s, s', t, x) && Plan(s.d, t, s.threads[t], x).op.RemoveQueue?
    ensures Closed(s.d, Plan(s.d, t, s.threads[t], x).op.sid)
  {
    var pc := s.threads[t];
    var m := Plan(s.d, t, pc, x);
    assert At(s, t);
    Performed(s.d, t, pc, x);
    if t.Watcher? {
      WatchMoves(s.d, t.sid, pc, x);
      assert SessionAt(s, t.sid);
    }
  }

  lemma ThreadInv(s: State, s': State, t: Tid, x: Input)
    requires Inv(s) && ThreadStep(s, s', t, x)
    ensures Inv(s')
  {
    assert At(s, t) && At(s, Loop);
    Steps(s, s', t, x);
    DataKept(s, s', t, x);
    ReaderKept(s, s', t, Plan(s.d, t, s.threads[t], x));
    forall u {:trigger At(s', u)} ensures At(s', u) { AtKept(s, s', t, x, u); }
    forall sid {:trigger SessionAt(s', sid)} ensures SessionAt(s', sid) { SessionAtKept(s, s', t, x, sid); }
  }

  // ---- Steps outside the goroutines ------------------------------------------

  lemma OutsideAt(s: State, s': State, op: Op, u: Tid)
    requires Inv(s) && OutsideStep(s, s', op)
    ensures Loop in s'.threads && At(s', u)
  {
    assert At(s, u) && At(s, Loop);
    if op.Fire? { assert At(s, Callback(op.id)); }
    OutsideData(s.d, s'.d, op, u);
    FreshOutside(s, s', op, u);
    OutsideLocks(s, s', op, u);
    if u in s.threads { OutsideFact(s.d, s'.d, op, u, s.threads[u]); }
    else if u in s'.threads { BornOutside(s.d, s'.d, op, u, s'.threads[u]); }
  }

  lemma OutsideLocks(s: State, s': State, op: Op, u: Tid)
    requires LocksAt(s, u) && Spontaneous(s.d, op)
    requires op.Fire? ==> Callback(op.id) !in s.threads && LocksAt(s, Callback(op.id))
    requires s'.threads == Spawn(s.d, s.threads, op) && s'.l == s.l
    ensures LocksAt(s', u)
    ensures if u in s.threads then u in s'.threads && s'.threads[u] == s.threads[u]
            else u in s'.threads ==> Spawned(s.d, op) == Some((u, s'.threads[u]))
  {
  }

  lemma BornOutside(d: Data, d': Data, op: Op, u: Tid, pcu: Pc)
    requires Spontaneous(d, op) && Spawned(d, op) == Some((u, pcu))
    ensures Fact(d', u, pcu) && NamesOk(d', pcu)
  {
  }

  lemma OutsideData(d: Data, d': Data, op: Op, u: Tid)
    requires Spontaneous(d, op) && Applied(d, d', op)
    ensures FreshData(d, d', op, u)
    ensures d.p.timers.next <= d'.p.timers.next
  {
    E.StartupFrame(d, d', op);
    E.AlarmGrowth(d, d', op, if u.Callback? then u.id else 0);
    if u.Watcher? { E.SessionChange(d, d', op, u.sid); }
  }

  lemma OutsideFact(d: Data, d': Data, op: Op, u: Tid, pcu: Pc)
    requires Role(u, pcu) && Fact(d, u, pcu) && NamesOk(d, pcu) && Spontaneous(d, op) && Applied(d, d', op)
    requires op.Fire? ==> pcu != Serving(InitStatus)
    ensures Fact(d', u, pcu) && NamesOk(d', pcu)
  {
    Persists(d, d', Exited, Exited, op);
    NamesPersist(d, d', pcu);
    if pcu != Serving(InitStatus) {
      SameKept(d, d', op);
      FactUnderSame(d, d', u, pcu);
    }
  }

  lemma OutsideSession(s: State, s': State, op: Op, sid: Sid)
    requires Inv(s) && OutsideStep(s, s', op)
    ensures Loop in s'.threads && SessionAt(s', sid)
  {
    assert SessionAt(s, sid) && At(s, Loop);
    if s.l.admission.Some? { assert At(s, s.l.admission.value); }
    if op.Fire? { assert At(s, Callback(op.id)); }
    SessionKept(ViewOf(s, sid), ViewOf(s', sid), Sweeper, Exited, Exited, op, sid);
  }

  lemma OutsideInv(s: State, s': State, op: Op)
    requires Inv(s) && OutsideStep(s, s', op)
    ensures Inv(s')
  {
    assert At(s, Loop);
    GateKept(s.d, s'.d, op);
    WakeKept(s.d, s'.d, op);
    RateKept(s.d, s'.d, op);
    StoreOkKept(s.d, s'.d, Exited, Exited, op);
    forall u {:trigger At(s', u)} ensures At(s', u) { OutsideAt(s, s', op, u); }
    forall sid {:trigger SessionAt(s', sid)} ensures SessionAt(s', sid) { OutsideSession(s, s', op, sid); }
  }
}
