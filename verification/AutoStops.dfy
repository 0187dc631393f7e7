/** Auto-stop timers and Stop requests: timer accounting, at most three attempts
    per generation with growing delays, and no Stop after an accepted one until
    the gate reopens. */
module AutoStops {
  import opened Basics
  import opened Lifecycle
  import opened Control
  import opened Facts
  import opened Sessions
  import opened Invariant
  import E = Effects
  import P = ProxyState

  // ---- Timers ------------------------------------------------------------------------

  predicate AlarmOk(alarm: P.Alarm, d: Data) {
    && 1 <= alarm.attempt <= MAX_AUTO_STOP_ATTEMPTS
    && alarm.delay == P.AttemptDelay(alarm.attempt, d.o)
    && alarm.armedAt <= d.now
  }

  /** Every unfired timer is `stopTimer`, of the current generation. */
  predicate TimerAt(d: Data, id: TimerId) {
    && (id in d.p.timers.alarms ==>
          && d.p.timers.current == Some(id) && d.p.timers.alarms[id].gen == d.p.timers.gen
          && AlarmOk(d.p.timers.alarms[id], d) && !d.p.shuttingDown)
    && (id in d.h.callbacks ==>
          && d.h.callbacks[id].gen <= d.p.timers.gen
          && AlarmOk(d.h.callbacks[id], d)
          && d.h.callbacks[id].armedAt + d.h.callbacks[id].delay <= d.now)
  }

  predicate CountOk(d: Data) {
    d.p.timers.waiting == |d.p.timers.alarms| + |d.h.callbacks|
  }

  /** What the running callback's program counter says of its timer. */
  predicate CallbackOk(d: Data, id: TimerId, pc: Option<Pc>) {
    if pc.None? || pc.value.Exited? then id !in d.h.callbacks
    else
      && id in d.h.callbacks && id !in d.p.timers.alarms
      && (pc.value.AutoStop? ==>
            pc.value.gen == d.h.callbacks[id].gen && pc.value.attempt == d.h.callbacks[id].attempt)
      && (pc.value.Marking? && pc.value.after.ToForget? ==>
            pc.value.after.gen == d.h.callbacks[id].gen && pc.value.after.attempt == d.h.callbacks[id].attempt)
      && (pc.value.AutoStop? && pc.value.stop.CbRetry? ==> pc.value.attempt < MAX_AUTO_STOP_ATTEMPTS)
  }

  /** The timer operations of callbacks name the callback's own timer. */
  predicate OwnTimer(t: Tid, pc: Pc, pc': Pc, op: Op) {
    && (op.EndCallback? <==> t.Callback? && pc'.Exited?)
    && (op.EndCallback? ==> t == Callback(op.id))
    && (t.Callback? && pc.AutoStop? && pc'.AutoStop? ==> pc'.gen == pc.gen && pc'.attempt == pc.attempt)
    && (t.Callback? && pc.AutoStop? && pc'.Marking? ==> pc'.after == ToForget(pc.gen, pc.attempt))
    && (t.Callback? && pc.Marking? && pc'.AutoStop? ==>
          pc.after == ToForget(pc'.gen, pc'.attempt) && pc'.stop.CbForget?)
    && (t.Callback? && pc.Marking? && pc'.Marking? ==> pc'.after == pc.after)
    && (t.Callback? && pc'.AutoStop? && pc'.stop.CbRetry? ==> pc'.attempt < MAX_AUTO_STOP_ATTEMPTS)
    && (t.Callback? && Carrying(pc') ==> Carrying(pc))
    && (op.RetryStop? ==> t.Callback? && pc == AutoStop(CbRetry, op.gen, op.attempt) && pc' == pc.(stop := CbLeave))
    && (op.ForgetTimer? ==> t.Callback? && pc.AutoStop? && pc.stop.CbForget? && pc.gen == op.gen
                            && pc' == pc.(stop := CbLeave))
  }

  lemma OwnTimers(d: Data, t: Tid, pc: Pc, x: Input)
    requires Role(t, pc) && Plan(d, t, pc, x).Go?
    ensures OwnTimer(t, pc, Plan(d, t, pc, x).pc, Plan(d, t, pc, x).op)
  {
  }

  // ---- One chain of attempts per generation ----------------------------------------

  /** A callback that may still send a Stop, or has sent one and not finished with it. */
  predicate Carrying(pc: Pc) {
    || (pc.AutoStop? && !pc.stop.CbLeave? && !pc.stop.CbExit?)
    || (pc.Marking? && pc.after.ToForget?)
  }

  /** The generation that timer `id` carries on, armed or running. */
  function Carries(d: Data, id: TimerId, pc: Option<Pc>): Option<nat> {
    if id in d.p.timers.alarms then Some(d.p.timers.alarms[id].gen)
    else if pc.Some? && Carrying(pc.value) && id in d.h.callbacks then Some(d.h.callbacks[id].gen)
    else None
  }

  predicate ChainOk(d: Data, i: TimerId, pci: Option<Pc>, j: TimerId, pcj: Option<Pc>) {
    i != j && Carries(d, i, pci).Some? && Carries(d, j, pcj).Some? ==> Carries(d, i, pci) != Carries(d, j, pcj)
  }

  /** Where an operation sets `stopTimer` for a generation, no timer of it is armed. */
  predicate Unarmed(d: Data, op: Op, id: TimerId) {
    (op.RetryStop? || op.ForgetTimer?) && op.gen == d.p.timers.gen ==> id !in d.p.timers.alarms
  }

  lemma TimerKept(d: Data, d': Data, op: Op, id: TimerId)
    requires TimerAt(d, id) && Unarmed(d, op, id) && GateOk(d.p) && Applied(d, d', op)
    requires id in d.p.timers.alarms ==> id < d.p.timers.next
    requires op.RetryStop? ==> 1 <= op.attempt < MAX_AUTO_STOP_ATTEMPTS
    requires op.Fire? ==> Spontaneous(d, op)
    ensures TimerAt(d', id)
  {
    E.ClockFrame(d, d', op);
    if !op.Teared? { E.GateFrame(d, d', op); }
    if !E.ChangesTimers(op) { E.TimerFrame(d, d', op); }
    else { TimerChanged(d, d', op, id); }
  }

  lemma TimerChanged(d: Data, d': Data, op: Op, id: TimerId)
    requires TimerAt(d, id) && Unarmed(d, op, id) && GateOk(d.p) && Applied(d, d', op) && E.ChangesTimers(op)
    requires id in d.p.timers.alarms ==> id < d.p.timers.next
    requires op.RetryStop? ==> 1 <= op.attempt < MAX_AUTO_STOP_ATTEMPTS
    requires op.Fire? ==> Spontaneous(d, op)
    ensures TimerAt(d', id)
  {
    if op.Teared? { TimerTorn(d, d', op.why, id); }
    else if op.Fire? || op.EndCallback? { TimerFired(d, d', op, id); }
    else { TimerArmed(d, d', op, id); }
  }

  lemma TimerTorn(d: Data, d': Data, why: Why, id: TimerId)
    requires TimerAt(d, id) && Applied(d, d', Teared(why))
    ensures TimerAt(d', id)
  {
    assert why.Failed? ==> d'.p.timers == d.p.timers && d'.p.shuttingDown == d.p.shuttingDown;
    assert !why.Failed? ==> id !in d'.p.timers.alarms && d'.p.timers.gen == d.p.timers.gen + 1;
  }

  lemma TimerFired(d: Data, d': Data, op: Op, id: TimerId)
    requires TimerAt(d, id) && Applied(d, d', op) && (op.Fire? || op.EndCallback?)
    requires op.Fire? ==> Spontaneous(d, op)
    ensures TimerAt(d', id)
  {
  }

  lemma TimerArmed(d: Data, d': Data, op: Op, id: TimerId)
    requires TimerAt(d, id) && Unarmed(d, op, id) && GateOk(d.p) && Applied(d, d', op)
    requires op.CancelTimer? || op.ScheduleTimer? || op.ForgetTimer? || op.RetryStop?
    requires id in d.p.timers.alarms ==> id < d.p.timers.next
    requires op.RetryStop? ==> 1 <= op.attempt < MAX_AUTO_STOP_ATTEMPTS
    ensures TimerAt(d', id)
  {
  }

  lemma CountKept(d: Data, d': Data, op: Op)
    requires CountOk(d) && Applied(d, d', op)
    requires d.p.timers.next !in d.p.timers.alarms
    requires op.Fire? ==> op.id !in d.h.callbacks
    requires op.EndCallback? ==> op.id in d.h.callbacks
    ensures CountOk(d')
  {
    if !E.ChangesTimers(op) { E.TimerFrame(d, d', op); } else { CountChanged(d, d', op); }
  }

  lemma CountChanged(d: Data, d': Data, op: Op)
    requires CountOk(d) && Applied(d, d', op) && E.ChangesTimers(op)
    requires d.p.timers.next !in d.p.timers.alarms
    requires op.Fire? ==> op.id !in d.h.callbacks
    requires op.EndCallback? ==> op.id in d.h.callbacks
    ensures CountOk(d')
  {
    if op.Fire? { CountFired(d, d', op.id); }
    else if op.EndCallback? { Without(d.h.callbacks, op.id); }
    else { CountShifted(d, d', op); }
  }

  lemma CountShifted(d: Data, d': Data, op: Op)
    requires CountOk(d) && Applied(d, d', op) && E.ChangesTimers(op) && !op.Fire? && !op.EndCallback?
    requires d.p.timers.next !in d.p.timers.alarms
    ensures CountOk(d')
  {
    CallbackFrame(d, d', op);
    Slacks(d, d', op);
  }

  lemma CountFired(d: Data, d': Data, id: TimerId)
    requires CountOk(d) && Applied(d, d', Fire(id)) && id !in d.h.callbacks
    ensures CountOk(d')
  {
    Without(d.p.timers.alarms, id);
    With(d.h.callbacks, id, d.p.timers.alarms[id]);
  }

  lemma With<V>(m: map<TimerId, V>, id: TimerId, v: V)
    requires id !in m
    ensures |m[id := v]| == |m| + 1
  {
    assert m[id := v].Keys == m.Keys + {id};
  }

  /** The wait group's count beyond the unfired timers. */
  function Slack(m: P.Timers): int {
    m.waiting - |m.alarms|
  }

  lemma Without<V>(m: map<TimerId, V>, id: TimerId)
    requires id in m
    ensures |m - {id}| == |m| - 1
  {
    assert m.Keys == (m - {id}).Keys + {id};
  }

  lemma StopSlack(m: P.Timers)
    ensures Slack(P.StopTimer(m)) == Slack(m) && P.StopTimer(m).alarms.Keys <= m.alarms.Keys
  {
    if m.current.Some? {
      if m.current.value in m.alarms { Without(m.alarms, m.current.value); }
      else { assert m.alarms - {m.current.value} == m.alarms; }
    }
  }

  lemma ArmSlack(m: P.Timers, gen: nat, attempt: nat, now: Time, delay: Time)
    requires m.next !in m.alarms
    ensures Slack(P.Arm(m, gen, attempt, now, delay)) == Slack(m)
  {
    var armed := P.Arm(m, gen, attempt, now, delay);
    Without(armed.alarms, m.next);
    assert armed.alarms - {m.next} == m.alarms;
  }

  /** Stopping and arming timers keeps the accounting. */
  predicate TimerSection(m: P.Timers, m': P.Timers, d: Data, op: Op) {
    || m' == m
    || m' == P.NextGeneration(m)
    || m' == P.Schedule(m, d.now, d.o)
    || (op.ForgetTimer? && m' == P.Forget(m, op.gen))
    || (op.RetryStop? && m' == P.Rearm(m, op.gen, op.attempt, d.now, d.o))
  }

  lemma TimerSections(d: Data, d': Data, op: Op)
    requires Applied(d, d', op) && !op.Fire? && !op.EndCallback?
    ensures TimerSection(d.p.timers, d'.p.timers, d, op)
  {
    if !E.ChangesTimers(op) { E.TimerFrame(d, d', op); }
  }

  lemma Slacks(d: Data, d': Data, op: Op)
    requires Applied(d, d', op) && !op.Fire? && !op.EndCallback?
    requires d.p.timers.next !in d.p.timers.alarms
    ensures Slack(d'.p.timers) == Slack(d.p.timers)
  {
    var m := d.p.timers;
    TimerSections(d, d', op);
    StopSlack(m.(gen := m.gen + 1));
    ArmSlack(P.NextGeneration(m), m.gen + 1, 1, d.now, d.o.autoStopDelay);
    if op.RetryStop? { ArmSlack(m, op.gen, op.attempt + 1, d.now, P.AttemptDelay(op.attempt + 1, d.o)); }
  }

  lemma CallbackKept(d: Data, d': Data, t: Tid, pc: Pc, pc': Pc, op: Op, id: TimerId, pci: Option<Pc>, pci': Option<Pc>)
    requires CallbackOk(d, id, pci) && Applied(d, d', op) && OwnTimer(t, pc, pc', op) && !op.Fire?
    requires Role(t, pc) && Role(t, pc') && !pc.Exited?
    requires if t == Callback(id) then pci == Some(pc) && pci' == Some(pc') else pci' == pci
    requires id in d.p.timers.alarms ==> id < d.p.timers.next
    requires pci.Some? ==> id < d.p.timers.next
    ensures CallbackOk(d', id, pci')
  {
    E.AlarmGrowth(d, d', op, id);
    CallbackFrame(d, d', op);
  }

  lemma CallbackFrame(d: Data, d': Data, op: Op)
    requires Applied(d, d', op) && !op.Fire?
    ensures d'.h.callbacks == if op.EndCallback? then d.h.callbacks - {op.id} else d.h.callbacks
  {
  }

  // ---- The chain of one generation ---------------------------------------------------

  /** How a step of `t` changes what the program counter of callback `id` is. */
  predicate PcStep(t: Tid, pc: Pc, pc': Pc, op: Op, d: Data, id: TimerId, pci: Option<Pc>, pci': Option<Pc>) {
    if t == Callback(id) then pci == Some(pc) && pci' == Some(pc')
    else if op == Fire(id) then pci.None? && pci'.Some? && Carrying(pci'.value)
    else pci' == pci
  }

  predicate CarryStep(d: Data, d': Data, op: Op, id: TimerId, before: Option<nat>, after: Option<nat>) {
    || after == before || after.None?
    || (id == d.p.timers.next && d'.p.timers.gen == d.p.timers.gen + 1 && after == Some(d'.p.timers.gen))
    || (id == d.p.timers.next && op.RetryStop? && op.gen == d.p.timers.gen && after == Some(op.gen))
  }

  lemma CarrySteps(d: Data, d': Data, t: Tid, pc: Pc, pc': Pc, op: Op, id: TimerId, pci: Option<Pc>, pci': Option<Pc>)
    requires TimerAt(d, id) && CallbackOk(d, id, pci) && Applied(d, d', op)
    requires OwnTimer(t, pc, pc', op) && Role(t, pc) && PcStep(t, pc, pc', op, d, id, pci, pci')
    requires id in d.p.timers.alarms || pci.Some? ==> id < d.p.timers.next
    requires op.Fire? ==> !t.Callback?
    ensures CarryStep(d, d', op, id, Carries(d, id, pci), Carries(d', id, pci'))
  {
    if op.Fire? { CarryFire(d, d', op, id, pci, pci'); }
    else {
      CallbackFrame(d, d', op);
      if op.EndCallback? { } else {
        TimerSections(d, d', op);
        CarrySection(d, d', t, pc, pc', op, id, pci, pci');
      }
    }
  }

  lemma CarryFire(d: Data, d': Data, op: Op, id: TimerId, pci: Option<Pc>, pci': Option<Pc>)
    requires op.Fire? && Applied(d, d', op) && TimerAt(d, id) && CallbackOk(d, id, pci)
    requires if op == Fire(id) then pci.None? else pci' == pci
    ensures CarryStep(d, d', op, id, Carries(d, id, pci), Carries(d', id, pci'))
  {
  }

  lemma CarrySection(d: Data, d': Data, t: Tid, pc: Pc, pc': Pc, op: Op, id: TimerId, pci: Option<Pc>, pci': Option<Pc>)
    requires TimerAt(d, id) && CallbackOk(d, id, pci) && TimerSection(d.p.timers, d'.p.timers, d, op)
    requires OwnTimer(t, pc, pc', op) && Role(t, pc) && PcStep(t, pc, pc', op, d, id, pci, pci') && !op.Fire?
    requires d'.h.callbacks == d.h.callbacks
    requires id in d.p.timers.alarms || pci.Some? ==> id < d.p.timers.next
    requires op.RetryStop? && d'.p.timers != d.p.timers ==> op.gen == d.p.timers.gen
    ensures CarryStep(d, d', op, id, Carries(d, id, pci), Carries(d', id, pci'))
  {
  }
}
