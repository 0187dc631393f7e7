/** The Stop requests of a generation: one chain of attempts, numbered and
    spaced, and none after an accepted Stop until the gate reopens. */
module StopLog {
  import opened Basics
  import opened Lifecycle
  import opened Control
  import opened AutoStops
  import P = ProxyState

  /** How many Stop requests of generation `gen` were sent. */
  function SentOf(stops: seq<StopRecord>, gen: nat): nat {
    if stops == [] then 0
    else SentOf(stops[..|stops| - 1], gen) + (if stops[|stops| - 1].gen == gen then 1 else 0)
  }

  /** The Stop requests sent so far let the attempt of `alarm` be the next one. */
  predicate AwaitsAttempt(stops: seq<StopRecord>, alarm: P.Alarm) {
    && SentOf(stops, alarm.gen) == alarm.attempt - 1
    && forall k | 0 <= k < |stops| && stops[k].gen == alarm.gen :: stops[k].sentAt <= alarm.armedAt
  }

  /** Callbacks that have not sent their Stop. */
  predicate PreStop(pc: Pc) {
    pc.AutoStop? && (pc.stop.CbAdmission? || pc.stop.CbLen? || pc.stop.CbMu?)
  }

  /** Callbacks that have sent their Stop and still act on its outcome. */
  predicate PostStop(pc: Pc) {
    Carrying(pc) && !PreStop(pc)
  }

  predicate AttemptsOk(d: Data, id: TimerId, pc: Option<Pc>) {
    && (id in d.p.timers.alarms ==> AwaitsAttempt(d.h.stops, d.p.timers.alarms[id]))
    && (pc.Some? && id in d.h.callbacks ==>
          && (PreStop(pc.value) ==> AwaitsAttempt(d.h.stops, d.h.callbacks[id]))
          && (PostStop(pc.value) ==> SentOf(d.h.stops, d.h.callbacks[id].gen) == d.h.callbacks[id].attempt))
  }

  /** One request of the log: its number within its generation, and its spacing. */
  predicate RecordOk(d: Data, k: nat)
    requires k < |d.h.stops|
  {
    var r := d.h.stops[k];
    && r.gen <= d.p.timers.gen
    && r.attempt == 1 + SentOf(d.h.stops[..k], r.gen)
    && r.attempt <= MAX_AUTO_STOP_ATTEMPTS
    && r.armedAt + P.AttemptDelay(r.attempt, d.o) <= r.sentAt <= d.now
    && forall i | 0 <= i < k && d.h.stops[i].gen == r.gen :: d.h.stops[i].sentAt <= r.armedAt
  }

  predicate LogOk(d: Data) {
    forall k | 0 <= k < |d.h.stops| :: RecordOk(d, k)
  }

  lemma SentOfAppend(stops: seq<StopRecord>, r: StopRecord, gen: nat)
    ensures SentOf(stops + [r], gen) == SentOf(stops, gen) + (if r.gen == gen then 1 else 0)
  {
    assert (stops + [r])[..|stops|] == stops;
  }

  lemma {:induction false} NoneSent(stops: seq<StopRecord>, gen: nat)
    requires forall k | 0 <= k < |stops| :: stops[k].gen != gen
    ensures SentOf(stops, gen) == 0
  {
    if stops != [] { NoneSent(stops[..|stops| - 1], gen); }
  }

  /** How callbacks move between sending their Stop and acting on its outcome. */
  predicate StopMove(d: Data, t: Tid, pc: Pc, pc': Pc, op: Op) {
    && (t.Callback? && PreStop(pc') ==> PreStop(pc))
    && (t.Callback? && PostStop(pc') ==> PostStop(pc) || op.StopSent?)
    && (op.StopSent? ==>
          && t.Callback? && t.id in d.h.callbacks && d.p.ready
          && pc == AutoStop(CbMu, op.record.gen, op.record.attempt) && pc' == pc.(stop := StopInFlight)
          && op.record.gen == d.p.timers.gen
          && op.record.armedAt == d.h.callbacks[t.id].armedAt && op.record.sentAt == d.now)
    && (op.RetryStop? ==> PostStop(pc))
    && (pc.Marking? && !pc'.Marking? ==> op.MarkStopped?)
    && (pc.Marking? && pc'.Marking? ==> pc'.after == pc.after)
    && (op.StopAccepted? ==> pc'.Marking? && pc'.after.ToForget? && HoldsAdmission(pc))
  }

  lemma StopMoves(d: Data, t: Tid, pc: Pc, x: Input)
    requires Role(t, pc) && Plan(d, t, pc, x).Go?
    ensures StopMove(d, t, pc, Plan(d, t, pc, x).pc, Plan(d, t, pc, x).op)
  {
  }

  lemma AttemptsKept(d: Data, d': Data, t: Tid, pc: Pc, pc': Pc, op: Op,
                     id: TimerId, pci: Option<Pc>, pci': Option<Pc>)
    requires AttemptsOk(d, id, pci) && TimerAt(d, id) && CallbackOk(d, id, pci) && LogOk(d)
    requires Applied(d, d', op) && !op.Fire? && PcStep(t, pc, pc', op, d, id, pci, pci')
    requires OwnTimer(t, pc, pc', op) && StopMove(d, t, pc, pc', op)
    requires id in d.p.timers.alarms || pci.Some? ==> id < d.p.timers.next
    requires t.Callback? ==>
      && CallbackOk(d, t.id, Some(pc)) && AttemptsOk(d, t.id, Some(pc)) && ChainOk(d, t.id, Some(pc), id, pci)
    ensures AttemptsOk(d', id, pci')
  {
    CallbackFrame(d, d', op);
    TimerSectionOf(d, d', op);
    if op.StopSent? {
      if id in d.h.callbacks { SentOfAppend(d.h.stops, op.record, d.h.callbacks[id].gen); }
    } else if id in d'.p.timers.alarms && id !in d.p.timers.alarms {
      ArmedAttempt(d, d', t, pc, op, id);
    }
  }

  lemma TimerSectionOf(d: Data, d': Data, op: Op)
    requires Applied(d, d', op) && !op.Fire?
    ensures op.EndCallback? || TimerSection(d.p.timers, d'.p.timers, d, op)
    ensures op.EndCallback? ==> d'.p.timers.alarms == d.p.timers.alarms
  {
    if !op.EndCallback? { TimerSections(d, d', op); }
  }

  /** A newly armed timer is for the next attempt of its generation. */
  lemma ArmedAttempt(d: Data, d': Data, t: Tid, pc: Pc, op: Op, id: TimerId)
    requires LogOk(d) && Applied(d, d', op) && !op.Fire? && !op.EndCallback? && !op.StopSent?
    requires TimerSection(d.p.timers, d'.p.timers, d, op)
    requires id in d'.p.timers.alarms && id !in d.p.timers.alarms
    requires op.RetryStop? ==>
      && t.Callback? && pc == AutoStop(CbRetry, op.gen, op.attempt)
      && CallbackOk(d, t.id, Some(pc)) && AttemptsOk(d, t.id, Some(pc))
    ensures AwaitsAttempt(d'.h.stops, d'.p.timers.alarms[id])
  {
    forall k | 0 <= k < |d.h.stops| ensures d.h.stops[k].gen <= d.p.timers.gen && d.h.stops[k].sentAt <= d.now {
      assert RecordOk(d, k);
    }
    NoneSent(d.h.stops, d.p.timers.gen + 1);
  }

  lemma LogKept(d: Data, d': Data, t: Tid, pc: Pc, pc': Pc, op: Op)
    requires LogOk(d) && Applied(d, d', op) && StopMove(d, t, pc, pc', op)
    requires op.StopSent? ==>
      CallbackOk(d, t.id, Some(pc)) && AttemptsOk(d, t.id, Some(pc)) && TimerAt(d, t.id)
    ensures LogOk(d')
  {
    GenerationGrows(d, d', op);
    forall k | 0 <= k < |d'.h.stops| ensures RecordOk(d', k) {
      if k < |d.h.stops| {
        assert RecordOk(d, k);
        assert d'.h.stops[..k] == d.h.stops[..k];
      } else {
        assert d'.h.stops[..k] == d.h.stops;
      }
    }
  }

  lemma GenerationGrows(d: Data, d': Data, op: Op)
    requires Applied(d, d', op)
    ensures d.p.timers.gen <= d'.p.timers.gen
  {
    if !op.Fire? { TimerSectionOf(d, d', op); }
  }
}
