/** The invariant of auto-stop timers and Stop requests, kept by every step. */
module StopSafety {
  import opened Basics
  import opened Lifecycle
  import opened Control
  import opened Facts
  import opened Sessions
  import opened Invariant
  import opened AutoStops
  import opened StopLog
  import E = Effects

  predicate TimerOk(d: Data, id: TimerId, pc: Option<Pc>) {
    TimerAt(d, id) && CallbackOk(d, id, pc) && AttemptsOk(d, id, pc)
  }

  predicate StopAt(s: State, id: TimerId) {
    TimerOk(s.d, id, PcOf(s, Callback(id)))
  }

  predicate ChainAt(s: State, i: TimerId, j: TimerId) {
    ChainOk(s.d, i, PcOf(s, Callback(i)), j, PcOf(s, Callback(j)))
  }

  predicate Forgetting(pc: Pc) {
    pc.Marking? && pc.after.ToForget?
  }

  /** After an accepted Stop the gate is closed, or its callback is closing it. */
  predicate AcceptedOk(d: Data, owner: Pc, loop: Pc) {
    d.h.stopAccepted ==> loop != Serving(InitStatus) && (!d.p.ready || Forgetting(owner))
  }

  ghost predicate StopInv(s: State) {
    && Loop in s.threads
    && (forall id {:trigger StopAt(s, id)} :: StopAt(s, id))
    && (forall i, j {:trigger ChainAt(s, i, j)} :: ChainAt(s, i, j))
    && CountOk(s.d) && LogOk(s.d) && AcceptedOk(s.d, OwnerPc(s), s.threads[Loop])
  }

  // ---- One timer ---------------------------------------------------------------------

  lemma UnarmedStep(d: Data, t: Tid, pc: Pc, pc': Pc, op: Op, id: TimerId, pci: Option<Pc>)
    requires OwnTimer(t, pc, pc', op) && TimerAt(d, id)
    requires t.Callback? ==> CallbackOk(d, t.id, Some(pc)) && ChainOk(d, t.id, Some(pc), id, pci)
    ensures Unarmed(d, op, id)
  {
  }

  lemma TimerOkKept(d: Data, d': Data, t: Tid, pc: Pc, pc': Pc, op: Op,
                    id: TimerId, pci: Option<Pc>, pci': Option<Pc>)
    requires TimerOk(d, id, pci) && LogOk(d) && GateOk(d.p)
    requires Applied(d, d', op) && !op.Fire? && PcStep(t, pc, pc', op, d, id, pci, pci')
    requires Role(t, pc) && Role(t, pc') && !pc.Exited? && OwnTimer(t, pc, pc', op) && StopMove(d, t, pc, pc', op)
    requires id in d.p.timers.alarms || pci.Some? ==> id < d.p.timers.next
    requires t.Callback? ==> TimerOk(d, t.id, Some(pc)) && ChainOk(d, t.id, Some(pc), id, pci)
    ensures TimerOk(d', id, pci')
  {
    UnarmedStep(d, t, pc, pc', op, id, pci);
    RetriedAttempt(d, t, pc, pc', op);
    TimerKept(d, d', op, id);
    CallbackKept(d, d', t, pc, pc', op, id, pci, pci');
    AttemptsKept(d, d', t, pc, pc', op, id, pci, pci');
  }

  lemma RetriedAttempt(d: Data, t: Tid, pc: Pc, pc': Pc, op: Op)
    requires OwnTimer(t, pc, pc', op) && (t.Callback? ==> TimerOk(d, t.id, Some(pc)))
    ensures op.RetryStop? ==> 1 <= op.attempt < MAX_AUTO_STOP_ATTEMPTS
  {
  }

  /** Whatever another goroutine does, generation `gen` stays with one timer. */
  lemma ChainKept(d: Data, d': Data, t: Tid, pc: Pc, pc': Pc, op: Op,
                  i: TimerId, pci: Option<Pc>, pci': Option<Pc>, j: TimerId, pcj: Option<Pc>, pcj': Option<Pc>)
    requires TimerOk(d, i, pci) && TimerOk(d, j, pcj) && ChainOk(d, i, pci, j, pcj) && Applied(d, d', op)
    requires OwnTimer(t, pc, pc', op) && Role(t, pc) && (op.Fire? ==> !t.Callback?)
    requires PcStep(t, pc, pc', op, d, i, pci, pci') && PcStep(t, pc, pc', op, d, j, pcj, pcj')
    requires i in d.p.timers.alarms || pci.Some? ==> i < d.p.timers.next
    requires j in d.p.timers.alarms || pcj.Some? ==> j < d.p.timers.next
    requires t.Callback? ==>
      && TimerOk(d, t.id, Some(pc)) && t.id < d.p.timers.next
      && ChainOk(d, t.id, Some(pc), i, pci) && ChainOk(d, t.id, Some(pc), j, pcj)
    ensures ChainOk(d', i, pci', j, pcj')
  {
    CarrySteps(d, d', t, pc, pc', op, i, pci, pci');
    CarrySteps(d, d', t, pc, pc', op, j, pcj, pcj');
    CarriedIsPast(d, i, pci);
    CarriedIsPast(d, j, pcj);
    if op.RetryStop? {
      E.AlarmGrowth(d, d', op, t.id);
      assert Carries(d, t.id, Some(pc)) == Some(op.gen);
      assert Carries(d', t.id, Some(pc')) == None;
    }
  }

  lemma CarriedIsPast(d: Data, id: TimerId, pc: Option<Pc>)
    requires TimerAt(d, id)
    ensures Carries(d, id, pc).Some? ==> Carries(d, id, pc).value <= d.p.timers.gen
  {
  }

  // ---- A timer fires ----------------------------------------------------------------

  lemma FiredOk(d: Data, d': Data, fired: TimerId, id: TimerId, pci: Option<Pc>, pci': Option<Pc>)
    requires TimerOk(d, id, pci) && Spontaneous(d, Fire(fired)) && Applied(d, d', Fire(fired))
    requires if id == fired
             then pci.None?
               && pci' == Some(AutoStop(CbAdmission, d.p.timers.alarms[id].gen, d.p.timers.alarms[id].attempt))
             else pci' == pci
    ensures TimerOk(d', id, pci')
  {
  }

  // ---- Every timer, across a step -------------------------------------------------------

  /** A planned step as the timers see it. */
  predicate TimerMove(d: Data, t: Tid, pc: Pc, pc': Pc, op: Op) {
    OwnTimer(t, pc, pc', op) && StopMove(d, t, pc, pc', op) && !pc.Exited? && Role(t, pc) && Role(t, pc')
  }

  lemma TimerMoves(s: State, s': State, t: Tid, x: Input)
    requires Inv(s) && ThreadStep(s, s', t, x)
    ensures Stepping(s, s', t, Plan(s.d, t, s.threads[t], x))
    ensures TimerMove(s.d, t, s.threads[t], Plan(s.d, t, s.threads[t], x).pc, Plan(s.d, t, s.threads[t], x).op)
  {
    assert At(s, t);
    Steps(s, s', t, x);
    OwnTimers(s.d, t, s.threads[t], x);
    StopMoves(s.d, t, s.threads[t], x);
  }

  lemma CallbackPc(s: State, s': State, t: Tid, m: Move, id: TimerId)
    requires Stepping(s, s', t, m)
    ensures PcStep(t, s.threads[t], m.pc, m.op, s.d, id, PcOf(s, Callback(id)), PcOf(s', Callback(id)))
  {
  }

  lemma CallbackIsPast(s: State, id: TimerId)
    requires Inv(s)
    ensures id in s.d.p.timers.alarms || PcOf(s, Callback(id)).Some? ==> id < s.d.p.timers.next
    ensures id in s.d.p.timers.alarms ==> PcOf(s, Callback(id)).None?
  {
    assert At(s, Callback(id));
  }

  lemma StopAtKept(s: State, s': State, t: Tid, m: Move, id: TimerId)
    requires Inv(s) && StopInv(s) && Stepping(s, s', t, m) && TimerMove(s.d, t, s.threads[t], m.pc, m.op)
    ensures StopAt(s', id)
  {
    assert StopAt(s, id);
    if t.Callback? { assert StopAt(s, t.id) && ChainAt(s, t.id, id); }
    CallbackPc(s, s', t, m, id);
    CallbackIsPast(s, id);
    TimerOkKept(s.d, s'.d, t, s.threads[t], m.pc, m.op, id, PcOf(s, Callback(id)), PcOf(s', Callback(id)));
  }

  lemma ChainAtKept(s: State, s': State, t: Tid, m: Move, i: TimerId, j: TimerId)
    requires Inv(s) && StopInv(s) && Stepping(s, s', t, m) && TimerMove(s.d, t, s.threads[t], m.pc, m.op)
    ensures ChainAt(s', i, j)
  {
    assert StopAt(s, i) && StopAt(s, j) && ChainAt(s, i, j);
    CallbackPc(s, s', t, m, i);
    CallbackPc(s, s', t, m, j);
    CallbackIsPast(s, i);
    CallbackIsPast(s, j);
    if t.Callback? {
      assert StopAt(s, t.id) && ChainAt(s, t.id, i) && ChainAt(s, t.id, j);
      CallbackIsPast(s, t.id);
    }
    ChainKept(s.d, s'.d, t, s.threads[t], m.pc, m.op,
              i, PcOf(s, Callback(i)), PcOf(s', Callback(i)), j, PcOf(s, Callback(j)), PcOf(s', Callback(j)));
  }

  lemma CountAtKept(s: State, s': State, t: Tid, m: Move)
    requires Inv(s) && StopInv(s) && Stepping(s, s', t, m) && TimerMove(s.d, t, s.threads[t], m.pc, m.op)
    ensures CountOk(s'.d) && LogOk(s'.d)
  {
    CallbackIsPast(s, s.d.p.timers.next);
    if t.Callback? { assert StopAt(s, t.id); }
    CountKept(s.d, s'.d, m.op);
    LogKept(s.d, s'.d, t, s.threads[t], m.pc, m.op);
  }

  lemma AcceptedKept(v: View, v': View, t: Tid, pc: Pc, pc': Pc, op: Op)
    requires AcceptedOk(v.d, v.owner, v.loop) && ViewStep(v, v', t, pc, pc', op, 0)
    requires StopMove(v.d, t, pc, pc', op) && Role(t, pc) && Ordered(pc, pc', op)
    requires op.StopAccepted? ==> v.loop != Serving(InitStatus)
    requires Performs(v.d, pc, pc', op) && Applied(v.d, v'.d, op)
    ensures AcceptedOk(v'.d, v'.owner, v'.loop)
  {
    if !E.ChangesGate(op) { E.GateFrame(v.d, v'.d, op); }
  }

  lemma AcceptedAtKept(s: State, s': State, t: Tid, m: Move)
    requires Inv(s) && StopInv(s) && Stepping(s, s', t, m) && TimerMove(s.d, t, s.threads[t], m.pc, m.op)
    ensures Loop in s'.threads && AcceptedOk(s'.d, OwnerPc(s'), s'.threads[Loop])
  {
    assert At(s, t);
    if s.l.admission.Some? { assert At(s, s.l.admission.value); }
    ViewSteps(s, s', t, m, 0);
    AcceptedKept(ViewOf(s, 0), ViewOf(s', 0), t, s.threads[t], m.pc, m.op);
  }

  lemma StopStep(s: State, s': State, t: Tid, x: Input)
    requires Inv(s) && StopInv(s) && ThreadStep(s, s', t, x)
    ensures StopInv(s')
  {
    var m := Plan(s.d, t, s.threads[t], x);
    TimerMoves(s, s', t, x);
    AcceptedAtKept(s, s', t, m);
    CountAtKept(s, s', t, m);
    forall id {:trigger StopAt(s', id)} ensures StopAt(s', id) { StopAtKept(s, s', t, m, id); }
    forall i, j {:trigger ChainAt(s', i, j)} ensures ChainAt(s', i, j) { ChainAtKept(s, s', t, m, i, j); }
  }

  // ---- Steps outside the goroutines ------------------------------------------------------

  lemma OutsidePc(s: State, s': State, op: Op, id: TimerId)
    requires Inv(s) && OutsideStep(s, s', op)
    ensures PcStep(Sweeper, Exited, Exited, op, s.d, id, PcOf(s, Callback(id)), PcOf(s', Callback(id)))
    ensures op == Fire(id) ==>
      PcOf(s', Callback(id)) ==
        Some(AutoStop(CbAdmission, s.d.p.timers.alarms[id].gen, s.d.p.timers.alarms[id].attempt))
  {
    CallbackIsPast(s, id);
  }

  lemma StopAtOutside(s: State, s': State, op: Op, id: TimerId)
    requires Inv(s) && StopInv(s) && OutsideStep(s, s', op)
    ensures StopAt(s', id)
  {
    assert StopAt(s, id);
    OutsidePc(s, s', op, id);
    CallbackIsPast(s, id);
    if op.Fire? { FiredOk(s.d, s'.d, op.id, id, PcOf(s, Callback(id)), PcOf(s', Callback(id))); }
    else { QuietTimer(s.d, s'.d, op, id, PcOf(s, Callback(id))); }
  }

  lemma QuietTimer(d: Data, d': Data, op: Op, id: TimerId, pci: Option<Pc>)
    requires TimerOk(d, id, pci) && Spontaneous(d, op) && !op.Fire? && Applied(d, d', op)
    ensures TimerOk(d', id, pci)
  {
    E.TimerFrame(d, d', op);
    E.GateFrame(d, d', op);
  }

  lemma ChainAtOutside(s: State, s': State, op: Op, i: TimerId, j: TimerId)
    requires Inv(s) && StopInv(s) && OutsideStep(s, s', op)
    ensures ChainAt(s', i, j)
  {
    assert StopAt(s, i) && StopAt(s, j) && ChainAt(s, i, j);
    OutsidePc(s, s', op, i);
    OutsidePc(s, s', op, j);
    CallbackIsPast(s, i);
    CallbackIsPast(s, j);
    ChainKept(s.d, s'.d, Sweeper, Exited, Exited, op,
              i, PcOf(s, Callback(i)), PcOf(s', Callback(i)), j, PcOf(s, Callback(j)), PcOf(s', Callback(j)));
  }

  lemma CountOutside(s: State, s': State, op: Op)
    requires Inv(s) && StopInv(s) && OutsideStep(s, s', op)
    ensures CountOk(s'.d) && LogOk(s'.d)
  {
    CallbackIsPast(s, s.d.p.timers.next);
    if op.Fire? { CallbackIsPast(s, op.id); assert StopAt(s, op.id); }
    CountKept(s.d, s'.d, op);
    LogKept(s.d, s'.d, Sweeper, Exited, Exited, op);
  }

  lemma StopOutside(s: State, s': State, op: Op)
    requires Inv(s) && StopInv(s) && OutsideStep(s, s', op)
    ensures StopInv(s')
  {
    CountOutside(s, s', op);
    E.GateFrame(s.d, s'.d, op);
    if s.l.admission.Some? { assert At(s, s.l.admission.value); }
    forall id {:trigger StopAt(s', id)} ensures StopAt(s', id) { StopAtOutside(s, s', op, id); }
    forall i, j {:trigger ChainAt(s', i, j)} ensures ChainAt(s', i, j) { ChainAtOutside(s, s', op, i, j); }
  }

  lemma StopInit(s: State)
    requires Init(s)
    ensures StopInv(s)
  {
  }
}
